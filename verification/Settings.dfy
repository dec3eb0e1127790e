// The settings store: general updates, the separate acceptance of the privacy
// policy, and the coalesced change signal.
module Settings {
  import opened Results
  import opened Paths

  const SCHEMA_VERSION := 2
  const CURRENT_POLICY := "2026-07-1"
  const MAX_PATH := 4096
  const MAX_NAME := 128

  datatype Values = Values(
    schemaVersion: int, appearance: string, reducedMotion: bool, downloadDirectory: string, conflictPolicy: string,
    notifications: bool, deviceName: string, discoverable: bool, incomingTransfers: bool,
    policyVersion: string, acceptedAt: Option<int>)

  predicate ValidValues(v: Values) {
    && v.schemaVersion in {0, 1, SCHEMA_VERSION}
    && v.appearance in {"system", "light", "dark"}
    && v.conflictPolicy in {"prompt", "rename", "overwrite"}
    && (v.downloadDirectory != "" ==> IsAbs(v.downloadDirectory))
    && |v.downloadDirectory| <= MAX_PATH && |v.deviceName| <= MAX_NAME
    && (v.policyVersion != "" && v.policyVersion != CURRENT_POLICY ==> v.acceptedAt.Some?)
  }

  predicate PrivacyAccepted(v: Values) {
    v.acceptedAt.Some? && v.policyVersion == CURRENT_POLICY
  }

  // trim is strings.TrimSpace; None is a rejected write.
  function Updated(current: Values, wanted: Values, trim: string -> string): Option<Values> {
    var v := wanted.(deviceName := trim(wanted.deviceName));
    if !ValidValues(v) then None
    else Some(v.(policyVersion := current.policyVersion, acceptedAt := current.acceptedAt, schemaVersion := SCHEMA_VERSION))
  }

  function Accepted(current: Values, version: string, at: int): Option<Values> {
    if version != CURRENT_POLICY then None
    else Some(current.(schemaVersion := SCHEMA_VERSION, policyVersion := version, acceptedAt := Some(at)))
  }

  // What a preference write may say: a known schema, a theme and a policy of the
  // list, an absolute directory or none, no overlong text, and no acceptance of
  // another policy version without a time.
  predicate Writable(wanted: Values, trim: string -> string) {
    && 0 <= wanted.schemaVersion <= 2
    && wanted.appearance in ["light", "dark", "system"] && wanted.conflictPolicy in ["overwrite", "rename", "prompt"]
    && wanted.downloadDirectory[..Min(1, |wanted.downloadDirectory|)] in ["", "/"]
    && |wanted.downloadDirectory| <= 4096 && |trim(wanted.deviceName)| <= 128
    && (wanted.acceptedAt == None ==> wanted.policyVersion in ["", "2026-07-1"])
  }

  function Min(a: int, b: int): int {
    if a < b then a else b
  }

  // What a write wants is what is read afterwards, but for the name's blanks, the
  // schema and the acceptance of the policy.
  lemma WriteIsRead(current: Values, wanted: Values, trim: string -> string)
    ensures Updated(current, wanted, trim).Some? <==> Writable(wanted, trim)
    ensures Updated(current, wanted, trim).Some? ==>
      && var v := Updated(current, wanted, trim).value;
      && v.appearance == wanted.appearance && v.reducedMotion == wanted.reducedMotion
      && v.downloadDirectory == wanted.downloadDirectory && v.conflictPolicy == wanted.conflictPolicy
      && v.notifications == wanted.notifications && v.deviceName == trim(wanted.deviceName)
      && v.discoverable == wanted.discoverable && v.incomingTransfers == wanted.incomingTransfers
      && v.schemaVersion == 2 && v.policyVersion == current.policyVersion && v.acceptedAt == current.acceptedAt
  {
    var d := wanted.downloadDirectory;
    assert d != "" ==> d[..1] == [d[0]];
    assert d == "" ==> d[..0] == "";
  }

  // The policy counts as accepted when this version of it was, at some time; an
  // acceptance is recorded with its time and changes no preference.
  lemma AcceptanceIsRead(current: Values, version: string, at: int)
    ensures PrivacyAccepted(current) <==> current.policyVersion == "2026-07-1" && current.acceptedAt != None
    ensures Accepted(current, version, at).Some? <==> version == "2026-07-1"
    ensures Accepted(current, version, at).Some? ==>
      && var v := Accepted(current, version, at).value;
      && PrivacyAccepted(v) && v.acceptedAt == Some(at) && v.policyVersion == version && v.schemaVersion == 2
      && v == current.(acceptedAt := v.acceptedAt, policyVersion := v.policyVersion, schemaVersion := v.schemaVersion)
  {
  }

  // durable: writing the file does not fail.
  class Store {
    const durable: bool
    var values: Values
    var signalled: bool // the change channel holds its one token
    const trim: string -> string

    constructor (values: Values, trim: string -> string, durable: bool)
      ensures this.values == values && !signalled && this.trim == trim && this.durable == durable
    {
      this.durable := durable;
      this.values := values;
      this.trim := trim;
      signalled := false;
    }

    // A successful write is always announced; a failed one changes nothing.
    method Update(wanted: Values) returns (r: Option<Values>)
      modifies this
      ensures r.Some? ==> r == Updated(old(values), wanted, trim) && values == r.value && signalled
      ensures r.None? ==> values == old(values) && signalled == old(signalled)
      ensures r.Some? ==> Writable(wanted, trim)
      ensures durable && Writable(wanted, trim) ==> r.Some?
    {
      WriteIsRead(values, wanted, trim);
      hide Writable;
      var v := wanted.(deviceName := trim(wanted.deviceName));
      if !ValidValues(v) { return None; }
      v := v.(policyVersion := values.policyVersion);
      v := v.(acceptedAt := values.acceptedAt);
      v := v.(schemaVersion := SCHEMA_VERSION);
      var saved: bool := *;
      if !saved && !durable { return None; }
      values := v;
      Notify();
      return Some(v);
    }

    method AcceptPrivacy(version: string, at: int) returns (r: Option<Values>)
      modifies this
      ensures r.Some? ==> r == Accepted(old(values), version, at) && values == r.value && signalled
      ensures r.None? ==> values == old(values) && signalled == old(signalled)
      ensures durable ==> (r.Some? <==> version == "2026-07-1")
    {
      if version != CURRENT_POLICY { return None; }
      var v := values.(schemaVersion := SCHEMA_VERSION, policyVersion := version, acceptedAt := Some(at));
      var saved: bool := *;
      if !saved && !durable { return None; }
      values := v;
      Notify();
      return Some(v);
    }

    // The select with a default: the token is coalesced.
    method Notify()
      modifies this`signalled
      ensures signalled
    {
      if !signalled {
        signalled := true;
      }
    }

    method Receive()
      requires signalled
      modifies this`signalled
      ensures !signalled
    {
      signalled := false;
    }
  }

  // --- acceptance over whole histories ---------------------------------------------

  datatype Write = Update(wanted: Values) | AcceptPrivacy(version: string, at: int)

  function Written(current: Values, w: Write, trim: string -> string): Values {
    var r := match w
      case Update(wanted) => Updated(current, wanted, trim)
      case AcceptPrivacy(version, at) => Accepted(current, version, at);
    if r.Some? then r.value else current
  }

  function History(current: Values, writes: seq<Write>, trim: string -> string): Values
    decreases |writes|
  {
    if writes == [] then current else History(Written(current, writes[0], trim), writes[1..], trim)
  }

  predicate Accepting(w: Write) {
    w.AcceptPrivacy? && w.version == CURRENT_POLICY
  }

  lemma OneWrite(current: Values, w: Write, trim: string -> string)
    ensures PrivacyAccepted(Written(current, w, trim)) <==> PrivacyAccepted(current) || Accepting(w)
    ensures !Accepting(w) ==>
      Written(current, w, trim).policyVersion == current.policyVersion
      && Written(current, w, trim).acceptedAt == current.acceptedAt
  {
  }

  // However the preferences are written, the policy counts as accepted exactly
  // when it was before or one write was an explicit acceptance of the current
  // version: updates neither forge nor clear it.
  lemma {:induction false} AcceptanceIsExplicit(current: Values, writes: seq<Write>, trim: string -> string)
    ensures PrivacyAccepted(History(current, writes, trim))
            <==> PrivacyAccepted(current) || exists w :: w in writes && Accepting(w)
    ensures (forall w :: w in writes ==> !Accepting(w)) ==>
      History(current, writes, trim).policyVersion == current.policyVersion
      && History(current, writes, trim).acceptedAt == current.acceptedAt
    decreases |writes|
  {
    if writes != [] {
      var next := Written(current, writes[0], trim);
      AcceptanceIsExplicit(next, writes[1..], trim);
      OneWrite(current, writes[0], trim);
      hide Written, PrivacyAccepted, Accepting;
      forall w ensures w in writes <==> w == writes[0] || w in writes[1..] {
        assert writes == [writes[0]] + writes[1..];
      }
    }
  }
}
