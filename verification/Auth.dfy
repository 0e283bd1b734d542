/** Device authentication for the broker, throttled by a sliding window of failures. */
module Auth {
  import opened Prelude
  import opened Db

  const RATE_WINDOW_SECONDS := 60.0
  const RATE_MAX_FAILURES := 10

  /** `[t for t in ts if t >= cutoff]` */
  function Recent(ts: seq<real>, cutoff: real): seq<real> {
    if ts == [] then []
    else
      var kept := Recent(ts[..|ts| - 1], cutoff);
      if ts[|ts| - 1] >= cutoff then kept + [ts[|ts| - 1]] else kept
  }

  type Failures = map<string, seq<real>>

  function Entries(failures: Failures, source: string): seq<real> {
    if source in failures then failures[source] else []
  }

  /** The store after `_is_throttled` has pruned it. */
  function Pruned(failures: Failures, source: string, now: real): Failures {
    failures[source := Recent(Entries(failures, source), now - RATE_WINDOW_SECONDS)]
  }

  predicate Throttled(failures: Failures, source: string, now: real) {
    |Recent(Entries(failures, source), now - RATE_WINDOW_SECONDS)| >= RATE_MAX_FAILURES
  }

  function Recorded(failures: Failures, source: string, now: real): Failures {
    failures[source := Entries(failures, source) + [now]]
  }

  datatype AuthRequest = AuthRequest(username: Option<string>, password: Option<string>, certCn: Option<string>)

  predicate Given(field: Option<string>) {
    field.Some? && field.value != ""
  }

  ghost predicate Certified(devices: map<string, DeviceRow>, certCn: Option<string>) {
    exists id :: id in devices && devices[id].certCn == certCn
  }

  /** `verify` stands for bcrypt; the bridge credential counts only when both variables are set. */
  ghost predicate CredentialsAccepted(
    devices: map<string, DeviceRow>, body: AuthRequest, bridgeUser: Option<string>, bridgePass: Option<string>,
    verify: (string, string) -> bool)
  {
    || (Given(bridgeUser) && Given(bridgePass) && body.username == bridgeUser && body.password == bridgePass)
    || (Given(body.certCn) && Certified(devices, body.certCn))
    || (&& Given(body.username) && Given(body.password) && body.username.value in devices
        && Given(devices[body.username.value].passwordHash)
        && verify(body.password.value, devices[body.username.value].passwordHash.value))
  }

  class DeviceAuth {
    var failures: Failures

    constructor ()
      ensures failures == map[]
    {
      failures := map[];
    }

    method IsThrottled(source: string, now: real) returns (throttled: bool)
      modifies this
      ensures failures == Pruned(old(failures), source, now)
      ensures throttled == Throttled(old(failures), source, now)
    {
      var cutoff := now - RATE_WINDOW_SECONDS;
      var recent := Recent(if source in failures then failures[source] else [], cutoff);
      failures := failures[source := recent];
      throttled := |recent| >= RATE_MAX_FAILURES;
    }

    method RecordAuthFailure(source: string, now: real)
      modifies this
      ensures failures == Recorded(old(failures), source, now)
    {
      if source !in failures {
        failures := failures[source := []];
      }
      failures := failures[source := failures[source] + [now]];
    }

    /** One request on its own: 429, 200 or 403. Only a 403 adds a failure, and no table changes. */
    method InternalAuth(
      db: Database, host: Option<string>, body: AuthRequest, bridgeUser: Option<string>, bridgePass: Option<string>,
      verify: (string, string) -> bool, checkedAt: real, failedAt: real)
      returns (status: int)
      modifies this
      ensures var source := if host.Some? then host.value else "unknown";
              var accepted := CredentialsAccepted(db.file.devices, body, bridgeUser, bridgePass, verify);
              var pruned := Pruned(old(failures), source, checkedAt);
              && (status == 429 <==> Throttled(old(failures), source, checkedAt))
              && (status == 200 <==> accepted && !Throttled(old(failures), source, checkedAt))
              && (status == 429 || status == 200 || status == 403)
              && failures == if status == 403 then Recorded(pruned, source, failedAt) else pruned
      ensures var source := if host.Some? then host.value else "unknown";
              var devices := db.file.devices;
              status == 200 <==>
              && !Throttled(old(failures), source, checkedAt)
              && (|| (&& bridgeUser.Some? && bridgeUser.value != "" && body.username == bridgeUser
                      && bridgePass.Some? && bridgePass.value != "" && body.password == bridgePass)
                  || (&& body.certCn.Some? && body.certCn.value != ""
                      && exists id :: id in devices && devices[id].certCn == body.certCn)
                  || (&& body.username.Some? && body.username.value != "" && body.username.value in devices
                      && body.password.Some? && body.password.value != ""
                      && devices[body.username.value].passwordHash.Some?
                      && devices[body.username.value].passwordHash.value != ""
                      && verify(body.password.value, devices[body.username.value].passwordHash.value)))
    {
      var source := if host.Some? then host.value else "unknown";
      var throttled := IsThrottled(source, checkedAt);
      if throttled {
        return 429;
      }
      if Given(bridgeUser) && Given(bridgePass) && body.username == bridgeUser && body.password == bridgePass {
        return 200;
      }
      var devices := db.file.devices;
      if Given(body.certCn) {
        if exists id :: id in devices && devices[id].certCn == body.certCn {
          return 200;
        }
      }
      if Given(body.username) && Given(body.password) {
        if body.username.value in devices {
          var hash := devices[body.username.value].passwordHash;
          if Given(hash) && verify(body.password.value, hash.value) {
            return 200;
          }
        }
      }
      RecordAuthFailure(source, failedAt);
      status := 403;
    }
  }
}
