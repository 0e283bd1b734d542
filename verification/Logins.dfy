/** Whom the broker lets in, over the life of a device: what its registration said, until its deletion. */
module Logins {
  import opened Prelude
  import opened Json
  import opened Db
  import opened Auth
  import opened ControlPlane

  /** The devices of a run accept a certificate, or an id with a password, where no bridge credential is
      set. */
  ghost predicate LetIn(es: seq<Event>, body: AuthRequest, verify: (string, string) -> bool) {
    CredentialsAccepted(Run(es).tables.devices, body, None, None, verify)
  }

  function WithPassword(id: string, password: string): AuthRequest {
    AuthRequest(Some(id), Some(password), None)
  }

  function WithCertificate(certCn: string): AuthRequest {
    AuthRequest(None, None, Some(certCn))
  }

  /** The row that a registration writes. */
  function Registered(
    certCn: Option<string>, password: Option<string>, hash: string -> string, groupId: string, attributes: Dict,
    now: int): DeviceRow
  {
    DeviceRow(certCn, if password.Some? && password.value != "" then Some(hash(password.value)) else None,
              groupId, attributes, now)
  }

  lemma RunExtended(start: seq<Event>, ext: seq<Event>)
    requires ext != []
    ensures Run(start + ext) == Step(Run(start + ext[..|ext| - 1]), ext[|ext| - 1])
  {
    assert (start + ext)[..|start + ext| - 1] == start + ext[..|ext| - 1];
  }

  lemma {:induction false} CredentialsStay(start: seq<Event>, ext: seq<Event>, id: string)
    requires id in Run(start).tables.devices && DeleteDevice(id) !in ext
    ensures var was, now := Run(start).tables.devices, Run(start + ext).tables.devices;
            id in now && now[id].certCn == was[id].certCn && now[id].passwordHash == was[id].passwordHash
  {
    if ext == [] {
      assert start + ext == start;
    } else {
      var init, e := ext[..|ext| - 1], ext[|ext| - 1];
      assert ext == init + [e];
      CredentialsStay(start, init, id);
      RunExtended(start, ext);
      AlwaysConsistent(start + init);
      RegistrationAfter(Run(start + init), e, id);
      RowWriters(Run(start + init), e, id);
    }
  }

  lemma {:induction false} StaysAway(start: seq<Event>, ext: seq<Event>, id: string)
    requires id !in Run(start).tables.devices && forall e | e in ext :: !(e.PostDevice? && e.id == id)
    ensures id !in Run(start + ext).tables.devices
  {
    if ext == [] {
      assert start + ext == start;
    } else {
      var init, e := ext[..|ext| - 1], ext[|ext| - 1];
      assert ext == init + [e];
      StaysAway(start, init, id);
      RunExtended(start, ext);
      AlwaysConsistent(start + init);
      RegistrationAfter(Run(start + init), e, id);
    }
  }

  lemma PostedRow(es: seq<Event>, id: string, row: DeviceRow)
    requires id !in Run(es).tables.devices
    ensures var now := Run(es + [PostDevice(id, row)]).tables.devices; id in now && now[id] == row
  {
    assert (es + [PostDevice(id, row)])[..|es|] == es;
    AlwaysConsistent(es);
    RegistrationAfter(Run(es), PostDevice(id, row), id);
    RowWriters(Run(es), PostDevice(id, row), id);
  }

  /** From its registration to its deletion, whatever else happens, a device logs in with a password exactly
      if it was registered with one, and the given one verifies against the hash of that one. */
  lemma PasswordFollowsRegistration(
    es: seq<Event>, id: string, certCn: Option<string>, password: Option<string>, hash: string -> string,
    groupId: string, attributes: Dict, now: int, ext: seq<Event>, given: string, verify: (string, string) -> bool)
    requires id !in Run(es).tables.devices && DeleteDevice(id) !in ext
    ensures var row := Registered(certCn, password, hash, groupId, attributes, now);
            LetIn(es + [PostDevice(id, row)] + ext, WithPassword(id, given), verify) <==>
            && id != "" && given != "" && password.Some? && password.value != ""
            && hash(password.value) != "" && verify(given, hash(password.value))
  {
    var row := Registered(certCn, password, hash, groupId, attributes, now);
    PostedRow(es, id, row);
    CredentialsStay(es + [PostDevice(id, row)], ext, id);
  }

  /** Its certificate lets it in for as long, whatever the password and the id in the request. */
  lemma CertificateFollowsRegistration(
    es: seq<Event>, id: string, row: DeviceRow, ext: seq<Event>, certCn: string, verify: (string, string) -> bool)
    requires id !in Run(es).tables.devices && DeleteDevice(id) !in ext
    requires row.certCn == Some(certCn) && certCn != ""
    ensures LetIn(es + [PostDevice(id, row)] + ext, WithCertificate(certCn), verify)
  {
    PostedRow(es, id, row);
    CredentialsStay(es + [PostDevice(id, row)], ext, id);
    var devices := Run(es + [PostDevice(id, row)] + ext).tables.devices;
    assert id in devices && devices[id].certCn == Some(certCn);
  }

  /** After its deletion, until a request registers the id again, no password logs it in. */
  lemma DeletedIsRefused(es: seq<Event>, id: string, ext: seq<Event>, given: string, verify: (string, string) -> bool)
    requires forall e | e in ext :: !(e.PostDevice? && e.id == id)
    ensures !LetIn(es + [DeleteDevice(id)] + ext, WithPassword(id, given), verify)
  {
    assert (es + [DeleteDevice(id)])[..|es|] == es;
    StaysAway(es + [DeleteDevice(id)], ext, id);
  }

  /** A certificate lets somebody in exactly while some registered device has it. */
  lemma CertificateIff(es: seq<Event>, certCn: string, verify: (string, string) -> bool)
    ensures LetIn(es, WithCertificate(certCn), verify) <==>
            certCn != "" && Certified(Run(es).tables.devices, Some(certCn))
  {
    assert Given(WithCertificate(certCn).certCn) <==> certCn != "";
  }
}
