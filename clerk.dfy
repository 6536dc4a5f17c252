/** Who the request's user is (src/lib/auth/clerk.ts).  The Clerk lookup,
    a dynamic import and call, is the parameter `clerkUserId` (its result,
    null on any failure), and the header source is the value it gives for
    `x-dev-user-id`. */
module Clerk {
  import opened Types
  import opened Env

  /** `isClerkConfigured`: both Clerk keys set and non-empty. */
  predicate IsClerkConfigured(env: Env) {
    Truthy(env, "NEXT_PUBLIC_CLERK_PUBLISHABLE_KEY") && Truthy(env, "CLERK_SECRET_KEY")
  }

  /** A JavaScript truthy string: present and non-empty. */
  predicate Given(s: Option<string>) {
    s.Some? && s.value != ""
  }

  /** `resolveAuthenticatedUserId`. */
  function ResolveAuthenticatedUserId(headerUserId: Option<string>, env: Env, clerkUserId: Option<string>): Option<string> {
    if IsClerkConfigured(env) && Given(clerkUserId) then clerkUserId
    else if !NonProduction(env) then None
    else if Given(headerUserId) then headerUserId
    else if Truthy(env, "FUTURE_WALLET_DEV_USER_ID") then Some(env["FUTURE_WALLET_DEV_USER_ID"])
    else Some("local-dev-user")
  }

  /** The cascade: a Clerk user wins when Clerk is configured, and Clerk is
      not consulted otherwise; in production nothing else is accepted;
      outside production the header, then the development variable, then
      `local-dev-user` is taken, so there is always a user; and any user
      returned is a non-empty id. */
  lemma ResolveCases(headerUserId: Option<string>, env: Env, clerkUserId: Option<string>, otherClerkUserId: Option<string>)
    ensures var r := ResolveAuthenticatedUserId(headerUserId, env, clerkUserId);
            && (IsClerkConfigured(env) && Given(clerkUserId) ==> r == clerkUserId)
            && (!IsClerkConfigured(env) ==> r == ResolveAuthenticatedUserId(headerUserId, env, otherClerkUserId))
            && (!NonProduction(env) ==> (r.Some? <==> IsClerkConfigured(env) && Given(clerkUserId)))
            && (NonProduction(env) ==> Given(r))
            && (NonProduction(env) && !(IsClerkConfigured(env) && Given(clerkUserId)) ==>
                  r == (if Given(headerUserId) then headerUserId
                        else if Truthy(env, "FUTURE_WALLET_DEV_USER_ID") then Some(env["FUTURE_WALLET_DEV_USER_ID"])
                        else Some("local-dev-user")))
            && (r.Some? ==> Given(r))
  {
  }

  /** The cases of the auth tests. */
  lemma ClerkExamples(clerkUserId: Option<string>)
    ensures !IsClerkConfigured(map[])
    ensures !IsClerkConfigured(map["NEXT_PUBLIC_CLERK_PUBLISHABLE_KEY" := "pk_test_123"])
    ensures IsClerkConfigured(map["NEXT_PUBLIC_CLERK_PUBLISHABLE_KEY" := "pk_test_123", "CLERK_SECRET_KEY" := "sk_test_123"])
    ensures ResolveAuthenticatedUserId(Some("dev-user-1"), map[], clerkUserId) == Some("dev-user-1")
    ensures ResolveAuthenticatedUserId(Some("spoofed-user"), map["NODE_ENV" := "production"], clerkUserId) == None
    ensures ResolveAuthenticatedUserId(None, map["NODE_ENV" := "production", "FUTURE_WALLET_DEV_USER_ID" := "dev-env-user"],
                                       clerkUserId) == None
  {
  }
}
