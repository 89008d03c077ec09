/** The request context's organization (internal/tenantctx/tenantctx.go). */
module TenantCtx {
  import opened Prelude

  /** A context is a chain of values over its parent, as context.WithValue builds it. */
  datatype Context = Background | OrgValue(parent: Context, org: int) | BypassValue(parent: Context)

  function WithOrg(ctx: Context, org: int): Context { if org == 0 then ctx else OrgValue(ctx, org) }

  function Bypass(ctx: Context): Context { BypassValue(ctx) }

  /** The innermost value stored under the org key. */
  function LookupOrg(ctx: Context): Option<int> {
    match ctx
    case Background => None
    case OrgValue(_, org) => Some(org)
    case BypassValue(parent) => LookupOrg(parent)
  }

  predicate LookupBypass(ctx: Context) {
    match ctx
    case Background => false
    case OrgValue(parent, _) => LookupBypass(parent)
    case BypassValue(_) => true
  }

  function OrgFrom(ctx: Context): Option<int> {
    if LookupBypass(ctx) then None
    else match LookupOrg(ctx)
      case Some(org) => if org != 0 then Some(org) else None
      case None => None
  }

  /** How a request's context came about: the calls that derived it, oldest first. */
  datatype Call = CallWithOrg(org: int) | CallBypass

  function Derive(calls: seq<Call>): Context {
    if calls == [] then Background
    else
      var ctx := Derive(calls[..|calls| - 1]);
      match calls[|calls| - 1] case CallWithOrg(org) => WithOrg(ctx, org) case CallBypass => Bypass(ctx)
  }

  predicate Sets(call: Call) { call.CallWithOrg? && call.org != 0 }

  lemma {:induction false} BypassDerived(calls: seq<Call>)
    ensures LookupBypass(Derive(calls)) <==> CallBypass in calls
  {
    if calls != [] {
      var n := |calls| - 1;
      BypassDerived(calls[..n]);
      assert calls == calls[..n] + [calls[n]];
    }
  }

  lemma {:induction false} LastSetDerived(calls: seq<Call>, i: nat)
    requires i < |calls| && Sets(calls[i]) && forall j | i < j < |calls| :: !Sets(calls[j])
    ensures LookupOrg(Derive(calls)) == Some(calls[i].org)
  {
    if i < |calls| - 1 { LastSetDerived(calls[..|calls| - 1], i); }
  }

  lemma {:induction false} NeverSetDerived(calls: seq<Call>)
    requires forall j | 0 <= j < |calls| :: !Sets(calls[j])
    ensures LookupOrg(Derive(calls)) == None
  {
    if calls != [] { NeverSetDerived(calls[..|calls| - 1]); }
  }

  /** A bypass anywhere stands the net down for good; otherwise the last non-zero organization set is the one in
      force, whatever else was derived after it. */
  lemma {:induction false} OrgFromDerived(calls: seq<Call>, i: nat)
    requires i < |calls| && Sets(calls[i]) && forall j | i < j < |calls| :: !Sets(calls[j])
    ensures OrgFrom(Derive(calls)) == if CallBypass in calls then None else Some(calls[i].org)
  {
    BypassDerived(calls);
    LastSetDerived(calls, i);
  }

  /** With no organization ever set there is none. */
  lemma {:induction false} NoOrgDerived(calls: seq<Call>)
    requires forall j | 0 <= j < |calls| :: !Sets(calls[j])
    ensures OrgFrom(Derive(calls)) == None
  {
    NeverSetDerived(calls);
  }
}
