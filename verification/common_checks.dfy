/**
 * The request guards of `anon/Modules/Common.php`: the redirect to the
 * installer that runs when the file is loaded, `Anon_Common::GetClientIp`,
 * and the checks `Anon_Check::validateCookie` makes before it asks the
 * database. `$_SERVER` is a map from key to string; `filter_var(..,
 * FILTER_VALIDATE_IP)`, PHP's `is_numeric`/`(int)` pair and the user lookup
 * are parameters.
 */
module AnonCommon {
  import opened Common

  // ---------------------------------------------------------------------------
  // Install redirect
  // ---------------------------------------------------------------------------

  const InstallLocation: string := "/anon/install"

  /** A request URI that mentions `/install` or `/anon` anywhere is left alone. */
  predicate IsInstallRoute(uri: string) {
    Contains(uri, "/install") || Contains(uri, "/anon")
  }

  /**
   * The guard at the top of the file: `Location: /anon/install` when the
   * system is not installed and the URI (empty when absent) is not an
   * install route; nothing otherwise.
   */
  function InstallRedirect(requestUri: Option<string>, installed: bool): (r: Option<string>)
    ensures r.Some? <==> !installed && !IsInstallRoute(requestUri.GetOr(""))
    ensures r.Some? ==> r.value == InstallLocation
  {
    var uri := requestUri.GetOr("");
    if !IsInstallRoute(uri) && !installed then Some(InstallLocation) else None
  }

  /** Following the redirect does not redirect again, installed or not. */
  lemma RedirectTargetIsNotRedirected(installed: bool)
    ensures InstallRedirect(Some(InstallLocation), installed).None?
  {
    assert "/anon" <= InstallLocation;
  }

  // ---------------------------------------------------------------------------
  // GetClientIp
  // ---------------------------------------------------------------------------

  datatype IpSource = ClientIpHeader | ForwardedFor | RemoteAddr

  /** The order `GetClientIp` tries the sources in. */
  const IpSources: seq<IpSource> := [ClientIpHeader, ForwardedFor, RemoteAddr]

  function SourceKey(src: IpSource): string {
    match src
    case ClientIpHeader => "HTTP_CLIENT_IP"
    case ForwardedFor => "HTTP_X_FORWARDED_FOR"
    case RemoteAddr => "REMOTE_ADDR"
  }

  /** The address a source offers: for X-Forwarded-For the first comma-separated entry, trimmed. */
  function Candidate(src: IpSource, raw: string): string {
    if src == ForwardedFor then Trim(Split(raw, ',')[0], TrimWhitespace) else raw
  }

  /** A source is used when its entry is non-empty and its candidate passes `filter_var`. */
  predicate Usable(server: map<string, string>, validIp: string -> bool, src: IpSource) {
    SourceKey(src) in server && !IsFalsyString(server[SourceKey(src)]) &&
    validIp(Candidate(src, server[SourceKey(src)]))
  }

  /** The IPv6 loopback is reported in its IPv4 form. */
  function LoopbackAsIpv4(ip: string): (r: string)
    ensures ip == "::1" ==> r == "127.0.0.1"
    ensures ip != "::1" ==> r == ip
  {
    if ip == "::1" then "127.0.0.1" else ip
  }

  /** The first usable source among `srcs`, reported; null when there is none. */
  function ClientIpOf(server: map<string, string>, validIp: string -> bool, srcs: seq<IpSource>): Option<string>
    decreases |srcs|
  {
    if |srcs| == 0 then None
    else if Usable(server, validIp, srcs[0]) then
      Some(LoopbackAsIpv4(Candidate(srcs[0], server[SourceKey(srcs[0])])))
    else ClientIpOf(server, validIp, srcs[1..])
  }

  /** `GetClientIp`: the loop over the three sources, returning at the first usable one. */
  method GetClientIp(server: map<string, string>, validIp: string -> bool) returns (ip: Option<string>)
    ensures ip == ClientIpOf(server, validIp, IpSources)
  {
    var i := 0;
    while i < |IpSources|
      invariant 0 <= i <= |IpSources|
      invariant ClientIpOf(server, validIp, IpSources) == ClientIpOf(server, validIp, IpSources[i..])
    {
      var src := IpSources[i];
      var key := SourceKey(src);
      if key in server && !IsFalsyString(server[key]) {
        var candidate := server[key];
        if src == ForwardedFor {
          var parts := Split(candidate, ',');
          candidate := Trim(parts[0], TrimWhitespace);
        }
        if validIp(candidate) {
          if candidate == "::1" {
            return Some("127.0.0.1");
          }
          return Some(candidate);
        }
      }
      assert IpSources[i..][1..] == IpSources[i + 1..];
      i := i + 1;
    }
    ip := None;
  }

  /** The first usable source decides, whatever the later ones hold. */
  lemma {:induction false} FirstUsableWins(server: map<string, string>, validIp: string -> bool,
                                           srcs: seq<IpSource>, i: nat)
    requires i < |srcs| && Usable(server, validIp, srcs[i])
    requires forall k :: 0 <= k < i ==> !Usable(server, validIp, srcs[k])
    ensures ClientIpOf(server, validIp, srcs) ==
            Some(LoopbackAsIpv4(Candidate(srcs[i], server[SourceKey(srcs[i])])))
    decreases i
  {
    if i > 0 {
      FirstUsableWins(server, validIp, srcs[1..], i - 1);
    }
  }

  /** Null exactly when no source is usable. */
  lemma {:induction false} NoUsableSourceIsNull(server: map<string, string>, validIp: string -> bool,
                                                srcs: seq<IpSource>)
    ensures ClientIpOf(server, validIp, srcs).None? <==> forall k :: 0 <= k < |srcs| ==> !Usable(server, validIp, srcs[k])
    decreases |srcs|
  {
    if |srcs| > 0 {
      NoUsableSourceIsNull(server, validIp, srcs[1..]);
      assert forall k :: 1 <= k < |srcs| ==> srcs[k] == srcs[1..][k - 1];
    }
  }

  /** A reported address passed validation, or is the loopback rewritten. */
  lemma {:induction false} ReportedIpWasValid(server: map<string, string>, validIp: string -> bool, srcs: seq<IpSource>)
    ensures var r := ClientIpOf(server, validIp, srcs);
            r.Some? ==> validIp(r.value) || (r.value == "127.0.0.1" && validIp("::1"))
    decreases |srcs|
  {
    if |srcs| > 0 && !Usable(server, validIp, srcs[0]) {
      ReportedIpWasValid(server, validIp, srcs[1..]);
    }
  }

  /** Only the first X-Forwarded-For entry counts: what follows the first comma is ignored. */
  lemma ForwardedForFirstEntry(first: string, rest: string)
    requires ',' !in first
    ensures Candidate(ForwardedFor, first + "," + rest) == Trim(first, TrimWhitespace)
  {
    var raw := first + "," + rest;
    assert raw[|first|] == ',';
    assert raw[..|first|] == first;
    SplitAt(raw, ',', |first|);
  }

  // ---------------------------------------------------------------------------
  // validateCookie
  // ---------------------------------------------------------------------------

  /** What the cookie checks decide before the database: reject, or look the id up. */
  datatype CookieVerdict = Reject | LookUp(id: int)

  /**
   * The checks before the lookup: the id must be numeric with a positive
   * integer value, and the username non-empty. `numeric` is PHP's
   * `is_numeric` paired with the `(int)` cast: `None` for a non-numeric
   * value.
   */
  function CookiePreCheck(userId: string, username: string, numeric: string -> Option<int>): (r: CookieVerdict)
    ensures r.LookUp? <==> numeric(userId).Some? && numeric(userId).value > 0 && !IsFalsyString(username)
    ensures r.LookUp? ==> r.id == numeric(userId).value && r.id > 0
  {
    var n := numeric(userId);
    if n.None? || n.value <= 0 then Reject
    else if IsFalsyString(username) then Reject
    else LookUp(n.value)
  }

  /** `validateCookie`: the pre-checks, then the stored name of the user must equal the cookie's username. */
  function ValidateCookie(userId: string, username: string, numeric: string -> Option<int>,
                          nameOf: int -> Option<string>): (ok: bool)
    ensures ok ==> username != "" && username != "0"
  {
    match CookiePreCheck(userId, username, numeric)
    case Reject => false
    case LookUp(id) => nameOf(id) == Some(username)
  }

  /** A rejected cookie fails whatever the database holds: the lookup is never consulted. */
  lemma RejectedCookieSkipsDatabase(userId: string, username: string, numeric: string -> Option<int>,
                                    db1: int -> Option<string>, db2: int -> Option<string>)
    requires CookiePreCheck(userId, username, numeric).Reject?
    ensures !ValidateCookie(userId, username, numeric, db1) && !ValidateCookie(userId, username, numeric, db2)
  {
  }

  /** An accepted cookie names a positive numeric id whose stored name is the cookie's username. */
  lemma AcceptedCookie(userId: string, username: string, numeric: string -> Option<int>, nameOf: int -> Option<string>)
    ensures ValidateCookie(userId, username, numeric, nameOf) <==>
            numeric(userId).Some? && numeric(userId).value > 0 && !IsFalsyString(username) &&
            nameOf(numeric(userId).value) == Some(username)
  {
  }
}
