/** Lifecycle leases and the recovery marker: validation, and the fields it is stored as. */
module RecoveryMarkers {
  import opened Results

  type U64 = n: nat | n < 0x1_0000_0000_0000_0000
  type U32 = n: nat | n < 0x1_0000_0000

  datatype Phase = GateHeld | OwnedRunning | Terminating | Invalid

  datatype Lease = Lease(
    generation: U64, phase: Phase, healthPid: U32, ownedPid: U32, processPid: U32, gateReleased: bool, scope: string)

  predicate IsLowerHexDigit(c: char) { '0' <= c <= '9' || 'a' <= c <= 'f' }

  predicate IsLowerHex(text: string, size: nat) {
    |text| == size && forall i :: 0 <= i < |text| ==> IsLowerHexDigit(text[i])
  }

  predicate Eligible(lease: Lease) {
    && lease.generation != 0 && lease.phase == OwnedRunning && lease.gateReleased
    && lease.healthPid != 0 && lease.healthPid == lease.ownedPid && lease.ownedPid == lease.processPid
    && IsLowerHex(lease.scope, 64)
  }

  datatype Marker = Marker(nonce: string, scope: string, origin: Lease)

  predicate ValidMarker(marker: Marker) {
    && IsLowerHex(marker.nonce, 32) && IsLowerHex(marker.scope, 64)
    && marker.scope == marker.origin.scope && Eligible(marker.origin)
  }

  datatype MarkerError = CorruptMarker | MarkerChanged | StorageUnavailable | RandomUnavailable

  // ---------------------------------------------------------------- stored form

  /** A stored value, as far as the decoder looks at it; Number is a non-negative integer. */
  datatype Value = Number(n: nat) | Text(text: string) | Flag(flag: bool) | Object(fields: map<string, Value>) | OtherValue

  function PhaseText(phase: Phase): string {
    match phase
    case GateHeld => "startup_gate_held"
    case OwnedRunning => "owned_running"
    case Terminating => "terminating"
    case Invalid => "invalid"
  }

  function PhaseOf(text: string): Option<Phase> {
    if text == "startup_gate_held" then Some(GateHeld)
    else if text == "owned_running" then Some(OwnedRunning)
    else if text == "terminating" then Some(Terminating)
    else if text == "invalid" then Some(Invalid)
    else None
  }

  function LeaseFields(lease: Lease): map<string, Value> {
    map["generation" := Number(lease.generation), "phase" := Text(PhaseText(lease.phase)),
        "health_pid" := Number(lease.healthPid), "owned_pid" := Number(lease.ownedPid),
        "process_pid" := Number(lease.processPid), "startup_gate_released" := Flag(lease.gateReleased),
        "state_scope" := Text(lease.scope)]
  }

  function Stored(marker: Marker): Value {
    Object(map["schema" := Number(1), "nonce" := Text(marker.nonce), "state_scope" := Text(marker.scope),
               "origin_lease" := Object(LeaseFields(marker.origin))])
  }

  function Encode(marker: Marker): Option<Value> { if ValidMarker(marker) then Some(Stored(marker)) else None }

  function GetText(fields: map<string, Value>, name: string): Option<string> {
    if name in fields && fields[name].Text? then Some(fields[name].text) else None
  }

  function GetU64(fields: map<string, Value>, name: string): Option<U64> {
    if name in fields && fields[name].Number? && fields[name].n < 0x1_0000_0000_0000_0000 then Some(fields[name].n) else None
  }

  function GetU32(fields: map<string, Value>, name: string): Option<U32> {
    match GetU64(fields, name)
    case Some(n) => if n < 0x1_0000_0000 then Some(n) else None
    case None => None
  }

  function GetFlag(fields: map<string, Value>, name: string): Option<bool> {
    if name in fields && fields[name].Flag? then Some(fields[name].flag) else None
  }

  function DecodeLease(origin: map<string, Value>): Option<Lease> {
    if |origin| != 7 then None
    else
      var phaseText := GetText(origin, "phase");
      var phase := if phaseText.Some? then PhaseOf(phaseText.value) else None;
      match (GetU64(origin, "generation"), phase, GetU32(origin, "health_pid"), GetU32(origin, "owned_pid"),
             GetU32(origin, "process_pid"), GetFlag(origin, "startup_gate_released"), GetText(origin, "state_scope"))
      case (Some(generation), Some(p), Some(health), Some(owned), Some(process), Some(released), Some(scope)) =>
        Some(Lease(generation, p, health, owned, process, released, scope))
      case _ => None
  }

  function Decode(value: Value): Option<Marker> {
    if !value.Object? || |value.fields| != 4 || GetU64(value.fields, "schema") != Some(1) then None
    else if "origin_lease" !in value.fields || !value.fields["origin_lease"].Object? then None
    else
      match (DecodeLease(value.fields["origin_lease"].fields), GetText(value.fields, "nonce"), GetText(value.fields, "state_scope"))
      case (Some(lease), Some(nonce), Some(scope)) =>
        var marker := Marker(nonce, scope, lease);
        if ValidMarker(marker) then Some(marker) else None
      case _ => None
  }

  const LEASE_NAMES: set<string> :=
    {"generation", "phase", "health_pid", "owned_pid", "process_pid", "startup_gate_released", "state_scope"}

  /** A set that holds another of at least its own size holds nothing else. */
  lemma NothingElse<T>(small: set<T>, large: set<T>)
    requires small <= large && |large| <= |small|
    ensures small == large
  {
    assert large == small + (large - small);
  }

  lemma LeaseNames()
    ensures |LEASE_NAMES| == 7
  {
    var one := {"generation"};
    var two := one + {"phase"};
    var three := two + {"health_pid"};
    var four := three + {"owned_pid"};
    var five := four + {"process_pid"};
    var six := five + {"startup_gate_released"};
    assert LEASE_NAMES == six + {"state_scope"};
  }

  lemma PhaseTextRoundTrip(phase: Phase, text: string)
    ensures PhaseOf(text) == Some(phase) <==> text == PhaseText(phase)
  {
  }

  lemma LeaseDecodes(lease: Lease)
    ensures DecodeLease(LeaseFields(lease)) == Some(lease)
  {
    hide IsLowerHex, PhaseText, PhaseOf;
    LeaseNames();
    PhaseTextRoundTrip(lease.phase, PhaseText(lease.phase));
    var origin := LeaseFields(lease);
    assert origin.Keys == LEASE_NAMES;
    assert |origin| == |origin.Keys|;
  }

  lemma DecodedLeaseIsStored(origin: map<string, Value>, lease: Lease)
    requires DecodeLease(origin) == Some(lease)
    ensures origin == LeaseFields(lease)
  {
    hide IsLowerHex, PhaseText, PhaseOf;
    LeaseNames();
    PhaseTextRoundTrip(lease.phase, origin["phase"].text);
    assert LEASE_NAMES <= origin.Keys;
    assert |origin| == |origin.Keys|;
    NothingElse(LEASE_NAMES, origin.Keys);
    forall name | name in LEASE_NAMES ensures origin[name] == LeaseFields(lease)[name] {}
  }

  lemma MarkerNames()
    ensures |{"schema", "nonce", "state_scope", "origin_lease"}| == 4
  {
    var one := {"schema"};
    var two := one + {"nonce"};
    var three := two + {"state_scope"};
    assert {"schema", "nonce", "state_scope", "origin_lease"} == three + {"origin_lease"};
  }

  /** A stored value decodes to a marker if and only if it is what a valid marker encodes to. */
  lemma DecodesExactlyTheEncoded(value: Value, marker: Marker)
    ensures Decode(value) == Some(marker) <==> Encode(marker) == Some(value)
  {
    hide LeaseFields, DecodeLease, IsLowerHex;
    MarkerNames();
    var names := {"schema", "nonce", "state_scope", "origin_lease"};
    if Decode(value) == Some(marker) {
      DecodedLeaseIsStored(value.fields["origin_lease"].fields, marker.origin);
      NothingElse(names, value.fields.Keys);
      assert value.fields.Keys == Stored(marker).fields.Keys;
      assert value.fields == Stored(marker).fields;
    }
    if Encode(marker) == Some(value) {
      LeaseDecodes(marker.origin);
      assert value.fields.Keys == names;
      assert |value.fields| == |value.fields.Keys|;
    }
  }

  /** What a stored value that decodes says: lower-case hexadecimal names of the right length, and the lease of a
      running backend that owns itself, released, of the marker's own scope. */
  lemma DecodedMarkerIs(value: Value, marker: Marker)
    requires Decode(value) == Some(marker)
    ensures |marker.nonce| == 32 && |marker.scope| == 64 && marker.origin.scope == marker.scope
    ensures forall c :: c in marker.nonce || c in marker.scope ==> '0' <= c <= '9' || 'a' <= c <= 'f'
    ensures marker.origin.generation > 0 && marker.origin.phase == OwnedRunning && marker.origin.gateReleased
    ensures 0 < marker.origin.processPid == marker.origin.ownedPid == marker.origin.healthPid
  {
    hide DecodeLease, LeaseFields;
  }

  /** And every such marker is encoded. */
  lemma SuchMarkersAreEncoded(marker: Marker)
    requires |marker.nonce| == 32 && |marker.scope| == 64 && marker.origin.scope == marker.scope
    requires forall c :: c in marker.nonce || c in marker.scope ==> '0' <= c <= '9' || 'a' <= c <= 'f'
    requires marker.origin.generation > 0 && marker.origin.phase == OwnedRunning && marker.origin.gateReleased
    requires 0 < marker.origin.processPid == marker.origin.ownedPid == marker.origin.healthPid
    ensures Encode(marker).Some?
  {
    assert forall i :: 0 <= i < 32 ==> marker.nonce[i] in marker.nonce;
    assert forall i :: 0 <= i < 64 ==> marker.scope[i] in marker.scope;
  }
}
