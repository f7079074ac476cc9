/**
 * The worker's top-level routing decisions (apps/worker/src/index.ts): which
 * `/api` paths bypass the admin-session check, and which origins the
 * `/api` CORS policy allows.
 */
module App {
  import opened Text
  import opened Wrappers

  /** The paths the `/api` middleware lets through without `adminAuth`. */
  predicate SkipsAdminAuth(path: string) {
    || path == "/api/auth/login"
    || StartsWith(path, "/api/channel")
    || StartsWith(path, "/api/user")
    || StartsWith(path, "/api/group")
  }

  datatype Guard = PassThrough | AdminAuth

  /** The `/api` middleware: continue directly, or run `adminAuth` first. */
  function ApiGuard(path: string): (g: Guard)
    ensures g == PassThrough <==>
      path == "/api/auth/login" ||
      (exists p :: p in ["/api/channel", "/api/user", "/api/group"] && StartsWith(path, p))
  {
    if SkipsAdminAuth(path) then PassThrough else AdminAuth
  }

  /**
   * The prefix test is on "/api/channel", so the admin channel CRUD mounted at
   * "/api/channels" is reachable without an admin session.
   */
  lemma ChannelCrudBypassesAdminAuth(rest: string)
    ensures ApiGuard("/api/channels" + rest) == PassThrough
  {
    assert ("/api/channels" + rest)[..12] == "/api/channel";
  }

  /** A path that differs from `p` at position `i` neither starts with `p` nor equals it. */
  lemma DiffersFrom(path: string, p: string, i: nat)
    requires i < |p| && i < |path| && path[i] != p[i]
    ensures !StartsWith(path, p) && path != p
  {
  }

  /** A path that differs from every bypass prefix at one position goes through `adminAuth`. */
  lemma NeedsAdminAuth(path: string, i: nat)
    requires i < 9 && i < |path|
    requires path[i] != "/api/auth/login"[i] && path[i] != "/api/channel"[i]
    requires path[i] != "/api/user"[i] && path[i] != "/api/group"[i]
    ensures ApiGuard(path) == AdminAuth
  {
    DiffersFrom(path, "/api/auth/login", i);
    DiffersFrom(path, "/api/channel", i);
    DiffersFrom(path, "/api/user", i);
    DiffersFrom(path, "/api/group", i);
  }

  /** The other admin route groups all go through `adminAuth`, whatever follows the prefix. */
  lemma AdminRoutesNeedAdminAuth(rest: string)
    ensures ApiGuard("/api/tokens" + rest) == AdminAuth
    ensures ApiGuard("/api/usage" + rest) == AdminAuth
    ensures ApiGuard("/api/models" + rest) == AdminAuth
    ensures ApiGuard("/api/dashboard" + rest) == AdminAuth
    ensures ApiGuard("/api/settings" + rest) == AdminAuth
  {
    var tokens, usage, models := "/api/tokens" + rest, "/api/usage" + rest, "/api/models" + rest;
    var dashboard, settings := "/api/dashboard" + rest, "/api/settings" + rest;
    assert tokens[5] == 't' && models[5] == 'm' && dashboard[5] == 'd' && settings[5] == 's';
    assert usage[8] == 'g';
    NeedsAdminAuth(tokens, 5);
    NeedsAdminAuth(usage, 8);
    NeedsAdminAuth(models, 5);
    NeedsAdminAuth(dashboard, 5);
    NeedsAdminAuth(settings, 5);
  }

  datatype CorsOrigin = AnyOrigin | Origins(list: seq<string>)

  /** The `origin` callback of the `/api` CORS policy, given `CORS_ORIGIN`. */
  function ApiCorsOrigin(corsOrigin: Option<string>): (o: CorsOrigin)
    ensures corsOrigin == None || corsOrigin == Some("*") <==> o == AnyOrigin
    ensures o.Origins? ==> |o.list| == |Split(corsOrigin.value, ',')|
    ensures o.Origins? ==> forall i :: 0 <= i < |o.list| ==>
      ',' !in o.list[i] && (o.list[i] == [] || (!IsSpace(o.list[i][0]) && !IsSpace(o.list[i][|o.list[i]| - 1])))
    ensures o.Origins? ==> forall i :: 0 <= i < |o.list| ==> o.list[i] == Trim(Split(corsOrigin.value, ',')[i])
  {
    var allowed := corsOrigin.GetOr("*");
    if allowed == "*" then AnyOrigin
    else
      var pieces := Split(allowed, ',');
      var list := seq(|pieces|, i requires 0 <= i < |pieces| => Trim(pieces[i]));
      assert forall i :: 0 <= i < |list| ==> ',' !in list[i] by {
        forall i | 0 <= i < |list| ensures ',' !in list[i] {
          TrimKeepsOut(pieces[i], ',');
        }
      }
      Origins(list)
  }

  /**
   * A list of clean origins written with commas and any white space around
   * each one is read back as exactly that list.
   */
  lemma ApiCorsOriginReadsList(origins: seq<string>, padded: seq<string>)
    requires |padded| == |origins| > 0
    requires forall i :: 0 <= i < |origins| ==> ',' !in padded[i]
    requires forall i :: 0 <= i < |origins| ==> exists a, b ::
      0 <= a <= b <= |padded[i]| && padded[i][a..b] == origins[i] &&
      (forall j :: 0 <= j < a ==> IsSpace(padded[i][j])) &&
      (forall j :: b <= j < |padded[i]| ==> IsSpace(padded[i][j])) &&
      (a == b || (!IsSpace(padded[i][a]) && !IsSpace(padded[i][b - 1])))
    requires Join(padded, [',']) != "*"
    ensures ApiCorsOrigin(Some(Join(padded, [',']))) == Origins(origins)
  {
    SplitJoin(padded, ',');
    var o := ApiCorsOrigin(Some(Join(padded, [','])));
    forall i | 0 <= i < |origins| ensures o.list[i] == origins[i] {
      var a, b :| 0 <= a <= b <= |padded[i]| && padded[i][a..b] == origins[i] &&
        (forall j :: 0 <= j < a ==> IsSpace(padded[i][j])) &&
        (forall j :: b <= j < |padded[i]| ==> IsSpace(padded[i][j])) &&
        (a == b || (!IsSpace(padded[i][a]) && !IsSpace(padded[i][b - 1])));
      TrimIsCore(padded[i], a, b);
    }
  }
}
