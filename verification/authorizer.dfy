/**
 * The `isAdmin` predicate of packages/core/src/libs/authorizer.ts: a request is
 * an administrator's when the Cognito authorizer's `cognito:groups` claim
 * includes `admin`. Every link of the optional chain may be missing.
 */
module Authorizer {
  import opened Wrappers

  /**
   * The `cognito:groups` claim. A REST API's Cognito authorizer hands claims
   * over as text, on which `includes` is a substring test; a list value is
   * searched for membership.
   */
  datatype Groups = GroupText(text: string) | GroupList(names: seq<string>)

  datatype Claims = Claims(sub: Option<string>, groups: Option<Groups>)

  datatype AuthorizerInfo = AuthorizerInfo(claims: Option<Claims>)

  datatype RequestContext = RequestContext(authorizer: Option<AuthorizerInfo>)

  const AdminGroup: string := "admin"

  /** `p` occurs in `s` starting at position `i`. */
  ghost predicate OccursAt(s: string, p: string, i: int) {
    0 <= i && i + |p| <= |s| && s[i..i + |p|] == p
  }

  /** String `includes`: does `p` occur anywhere in `s`? */
  predicate HasInfix(s: string, p: string)
    decreases |s|
  {
    if |s| < |p| then false
    else s[..|p|] == p || HasInfix(s[1..], p)
  }

  /** The scanning test above finds exactly the positions where `p` occurs. */
  lemma {:induction false} HasInfixIsOccurrence(s: string, p: string)
    ensures HasInfix(s, p) <==> exists i :: OccursAt(s, p, i)
    decreases |s|
  {
    if |s| < |p| {
      assert forall i :: !OccursAt(s, p, i);
    } else if s[..|p|] == p {
      assert OccursAt(s, p, 0);
    } else {
      HasInfixIsOccurrence(s[1..], p);
      if HasInfix(s[1..], p) {
        var j :| OccursAt(s[1..], p, j);
        assert s[j + 1..j + 1 + |p|] == s[1..][j..j + |p|];
        assert OccursAt(s, p, j + 1);
      }
      if i :| OccursAt(s, p, i) {
        assert i != 0;
        assert s[1..][i - 1..i - 1 + |p|] == s[i..i + |p|];
        assert OccursAt(s[1..], p, i - 1);
      }
    }
  }

  /** The groups claim, when the whole optional chain is present. */
  function GroupsClaim(ctx: RequestContext): Option<Groups> {
    if ctx.authorizer.Some? && ctx.authorizer.value.claims.Some? then ctx.authorizer.value.claims.value.groups
    else None
  }

  /** `requestContext.authorizer?.claims?.['cognito:groups']?.includes('admin') ?? false` */
  function IsAdmin(ctx: RequestContext): (r: bool)
    ensures ctx.authorizer.None? ==> !r
    ensures ctx.authorizer.Some? && ctx.authorizer.value.claims.None? ==> !r
    ensures GroupsClaim(ctx).None? ==> !r
    ensures forall names :: GroupsClaim(ctx) == Some(GroupList(names)) ==> (r <==> AdminGroup in names)
    ensures forall text :: GroupsClaim(ctx) == Some(GroupText(text)) ==>
              (r <==> exists i :: OccursAt(text, AdminGroup, i))
  {
    match GroupsClaim(ctx)
    case None => false
    case Some(GroupList(names)) => AdminGroup in names
    case Some(GroupText(text)) =>
      HasInfixIsOccurrence(text, AdminGroup);
      HasInfix(text, AdminGroup)
  }
}
