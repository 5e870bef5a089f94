/**
 * The CORS configuration: the origin callback that decides, per request
 * origin and runtime mode, whether a cross-origin request is allowed, and
 * the static options passed alongside it.
 */
module Cors {
  import opened Json
  import opened Http

  /** `sub` occurs in `s` starting at position `i`. */
  predicate OccursAt(s: string, sub: string, i: int) {
    0 <= i && i + |sub| <= |s| && s[i..i + |sub|] == sub
  }

  /** `s.includes(sub)`, scanning `s` one position at a time. */
  function Includes(s: string, sub: string): bool
    decreases |s|
  {
    if sub <= s then true
    else if s == [] then false
    else Includes(s[1..], sub)
  }

  /** `includes` holds exactly when `sub` occurs somewhere in `s`. */
  lemma {:induction false} IncludesOccurs(s: string, sub: string)
    ensures Includes(s, sub) <==> exists i :: OccursAt(s, sub, i)
    decreases |s|
  {
    if sub <= s {
      assert s[0..|sub|] == sub;
      assert OccursAt(s, sub, 0);
    } else if s == [] {
      assert forall i :: !OccursAt(s, sub, i);
    } else {
      IncludesOccurs(s[1..], sub);
      forall i | OccursAt(s[1..], sub, i) ensures OccursAt(s, sub, i + 1) {
        assert s[1..][i..i + |sub|] == s[i + 1..i + 1 + |sub|];
      }
      forall i | OccursAt(s, sub, i) ensures OccursAt(s[1..], sub, i - 1) {
        assert s[1..][i - 1..i - 1 + |sub|] == s[i..i + |sub|];
      }
    }
  }

  /** The argument the origin callback receives: `callback(null, true)` or
      `callback(new Error(message))`. */
  datatype Decision = Allow | Reject(message: string)

  const NotAllowedMessage := "Not allowed by CORS"

  /** The explicit allowlist (the Vite development server). */
  const AllowedOrigins: seq<string> := ["http://localhost:5173"]

  /** A missing or empty origin header (`!origin`). */
  predicate Absent(origin: Option<string>) {
    origin.None? || origin.value == ""
  }

  /** A local origin, as the non-production shortcut recognises it. */
  ghost predicate Local(o: string) {
    (exists i :: OccursAt(o, "localhost", i)) || (exists i :: OccursAt(o, "127.0.0.1", i))
  }

  /** `corsConfigurations.origin(origin, callback)`: no origin is allowed;
      outside production any origin mentioning `localhost` or `127.0.0.1` is
      allowed; otherwise exactly the allowlist is; everything else is
      rejected with the one fixed message. */
  function OriginDecision(origin: Option<string>, env: NodeEnv): (d: Decision)
    ensures d == Allow || d == Reject(NotAllowedMessage)
    ensures d == Allow <==>
      || Absent(origin)
      || (!IsProduction(env) && Local(origin.value))
      || origin.value in AllowedOrigins
  {
    if Absent(origin) then Allow
    else
      var o := origin.value;
      IncludesOccurs(o, "localhost");
      IncludesOccurs(o, "127.0.0.1");
      if !IsProduction(env) && (Includes(o, "localhost") || Includes(o, "127.0.0.1")) then Allow
      else if o in AllowedOrigins then Allow
      else Reject(NotAllowedMessage)
  }

  /** In production the decision is the allowlist alone. */
  lemma ProductionUsesAllowlistOnly(origin: string, env: NodeEnv)
    requires IsProduction(env) && origin != ""
    ensures OriginDecision(Some(origin), env) == Allow <==> origin in AllowedOrigins
  {
  }

  /** The allowlisted origin is allowed whatever the mode. */
  lemma AllowlistedEverywhere(env: NodeEnv)
    ensures OriginDecision(Some("http://localhost:5173"), env) == Allow
  {
  }

  /** Outside production, and with `NODE_ENV` unset, a localhost origin on
      any port is allowed; in production the same origin is rejected. */
  lemma {:induction false} LocalhostOutsideProduction(port: string, env: NodeEnv)
    requires !IsProduction(env)
    ensures OriginDecision(Some("http://localhost:" + port), env) == Allow
    ensures OriginDecision(Some("http://127.0.0.1:" + port), env) == Allow
    ensures "http://localhost:" + port !in AllowedOrigins ==>
      OriginDecision(Some("http://localhost:" + port), Some("production")) == Reject(NotAllowedMessage)
  {
    var a, b := "http://localhost:" + port, "http://127.0.0.1:" + port;
    assert a[7..7 + |"localhost"|] == "localhost";
    assert OccursAt(a, "localhost", 7);
    assert b[7..7 + |"127.0.0.1"|] == "127.0.0.1";
    assert OccursAt(b, "127.0.0.1", 7);
  }

  /** The static options that go with the origin callback. */
  datatype CorsOptions = CorsOptions(
    methods: seq<string>,
    allowedHeaders: seq<string>,
    credentials: bool,
    optionsSuccessStatus: int,
    preflightContinue: bool)

  const CorsConfigurations: CorsOptions := CorsOptions(
    ["GET", "POST", "PUT", "DELETE", "PATCH", "OPTIONS"],
    ["Content-Type", "Authorization", "X-Requested-With", "Accept", "Origin"],
    true,
    200,
    false)

  /** Preflight requests are answered here with 200 rather than 204 and go
      no further; credentials are allowed and `Authorization` may be sent. */
  lemma PreflightOptions()
    ensures "OPTIONS" in CorsConfigurations.methods
    ensures CorsConfigurations.optionsSuccessStatus == 200 && !CorsConfigurations.preflightContinue
    ensures CorsConfigurations.credentials && "Authorization" in CorsConfigurations.allowedHeaders
  {
  }
}
