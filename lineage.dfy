/** Lineages of tickets: a ticket reissued again and again, each child
    recovered from its id by parse before it is reissued in turn. The
    properties here hold for every descendant, not just for one reissue. */
module Lineage {
  import opened JsValues
  import opened Model
  import opened Finalizer
  import opened Reissuer

  /** One reissue request: its grant, options, clock reading and random source. */
  datatype Request = Request(grant: Option<Grant>, options: Options, now: int, randomString: int -> Option<string>)

  /** One renewal: reissue the parent, then parse the child's id. */
  function Renew(parent: Ticket, req: Request, password: string, scopes: ScopeModule, iron: Iron): Result<Ticket>
  {
    match Reissue(Some(parent), req.grant, password, Some(req.options), scopes, iron, req.now, req.randomString)
    case Err(e) => Err(e)
    case Ok(child) => Parse(child.id.value, password, Some(req.options), iron)
  }

  /** The last ticket of a lineage, or the first failure along it. */
  function Descend(root: Ticket, reqs: seq<Request>, password: string, scopes: ScopeModule, iron: Iron): Result<Ticket>
    decreases |reqs|
  {
    if reqs == [] then Ok(root)
    else
      match Renew(root, reqs[0], password, scopes, iron)
      case Err(e) => Err(e)
      case Ok(child) => Descend(child, reqs[1..], password, scopes, iron)
  }

  /** The number of requests that delegate (carry a truthy issueTo). */
  function Hops(reqs: seq<Request>): nat
  {
    if reqs == [] then 0 else (if TruthyStr(reqs[0].options.issueTo) then 1 else 0) + Hops(reqs[1..])
  }

  /** A renewal obeys the derivation policy: the ticket parse recovers has
      the claims of the ticket reissue returned. */
  lemma RenewDescends(parent: Ticket, req: Request, password: string, scopes: ScopeModule, iron: Iron, child: Ticket)
    requires Inverts(iron)
    requires Renew(parent, req, password, scopes, iron) == Ok(child)
    ensures Descends(parent, child, req.options, scopes.isSubset)
  {
    var (draft, effective) := ReissueDraft(Some(parent), req.grant, password, Some(req.options), scopes, req.now).value;
    var t := Reissue(Some(parent), req.grant, password, Some(req.options), scopes, iron, req.now, req.randomString).value;
    ParseInvertsGenerate(draft, password, effective, req.randomString, iron, t);
    assert SameClaims(child, draft);
  }

  /** delegate === false is sticky: every descendant keeps it, stays with the
      same application and delegation record, and no request in the lineage
      delegates. */
  lemma {:induction false} RestrictionIsSticky(root: Ticket, reqs: seq<Request>, password: string,
                                               scopes: ScopeModule, iron: Iron, t: Ticket)
    requires Inverts(iron) && root.delegate == Some(false)
    requires Descend(root, reqs, password, scopes, iron) == Ok(t)
    ensures t.delegate == Some(false)
    ensures t.app == root.app
    ensures TruthyStr(t.dlg) == TruthyStr(root.dlg)
    ensures Hops(reqs) == 0
    decreases |reqs|
  {
    if reqs != [] {
      var child := Renew(root, reqs[0], password, scopes, iron).value;
      RenewDescends(root, reqs[0], password, scopes, iron, child);
      RestrictionIsSticky(child, reqs[1..], password, scopes, iron, t);
    }
  }

  /** Delegation is capped at one hop: from a ticket with an application, a
      lineage delegates at most once, and never when the root was itself
      delegated; once it has, every descendant records the delegation. */
  lemma {:induction false} AtMostOneHop(root: Ticket, reqs: seq<Request>, password: string,
                                        scopes: ScopeModule, iron: Iron, t: Ticket)
    requires Inverts(iron) && TruthyStr(root.app)
    requires Descend(root, reqs, password, scopes, iron) == Ok(t)
    ensures Hops(reqs) <= (if TruthyStr(root.dlg) then 0 else 1)
    ensures TruthyStr(t.app)
    ensures Hops(reqs) == 1 || TruthyStr(root.dlg) ==> TruthyStr(t.dlg)
    decreases |reqs|
  {
    if reqs != [] {
      var child := Renew(root, reqs[0], password, scopes, iron).value;
      RenewDescends(root, reqs[0], password, scopes, iron, child);
      AtMostOneHop(child, reqs[1..], password, scopes, iron, t);
    }
  }

  /** Scope never widens along a lineage, given that the scope module's
      subset relation is transitive. */
  lemma {:induction false} ScopeNeverWidens(root: Ticket, reqs: seq<Request>, password: string,
                                            scopes: ScopeModule, iron: Iron, t: Ticket)
    requires Inverts(iron) && SubsetTransitive(scopes.isSubset)
    requires Descend(root, reqs, password, scopes, iron) == Ok(t)
    ensures t.scope == root.scope || (t.scope.Some? && scopes.isSubset(root.scope, t.scope.value))
    decreases |reqs|
  {
    if reqs != [] {
      var child := Renew(root, reqs[0], password, scopes, iron).value;
      RenewDescends(root, reqs[0], password, scopes, iron, child);
      ScopeNeverWidens(child, reqs[1..], password, scopes, iron, t);
    }
  }

  /** Grant linkage is fixed along a lineage: every descendant carries the
      root's grant id, and none is attached to a grant the root lacked. */
  lemma {:induction false} GrantIsFixed(root: Ticket, reqs: seq<Request>, password: string,
                                        scopes: ScopeModule, iron: Iron, t: Ticket)
    requires Inverts(iron)
    requires Descend(root, reqs, password, scopes, iron) == Ok(t)
    ensures IfTruthy(t.grant) == IfTruthy(root.grant)
    decreases |reqs|
  {
    if reqs != [] {
      var child := Renew(root, reqs[0], password, scopes, iron).value;
      RenewDescends(root, reqs[0], password, scopes, iron, child);
      GrantIsFixed(child, reqs[1..], password, scopes, iron, t);
    }
  }
}
