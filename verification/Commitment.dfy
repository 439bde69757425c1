/**
 What an epoch commits to when it is frozen, and the check that reads the providers' vectors back from the stored
 epoch (src/server/service.js). Stored documents are arbitrary JSON values; decryption and signature checking are
 parameters.
 */
module Commitment {
  import opened Prelude
  import opened Canonical
  import opened Merkle

  // ---------------------------------------------------------------------------------------------
  // Texts, names of digests, and properties of objects

  /** A literal as code units. */
  function T(s: string): (t: Text)
    ensures |t| == |s|
  {
    seq(|s|, i requires 0 <= i < |s| => if s[i] as int < 0x1_0000 then s[i] as int else 0)
  }

  function NameUnits(t: Text): Text {
    if t == [] then [3] else [2, t[0]] + NameUnits(t[1..])
  }

  function Count(n: nat): Text {
    if n == 0 then [3] else [2] + Count(n - 1)
  }

  /** The hexadecimal text of a digest: one text per digest, and different ones for different digests. */
  function Name(d: Digest): Text {
    match d
    case OfText(t) => [1] + NameUnits(t)
    case OfPair(left, right) => [4] + Name(left) + Name(right)
    case Other(n) => [5] + Count(n)
    case Malformed(n) => [6] + Count(n)
  }

  /** `hash(value)`, None where the printer throws. */
  function HashText(v: Value): Option<Text> {
    match Hash(v)
    case Ok(d) => Some(Name(d))
    case Err(_) => None
  }

  function Find(fields: seq<(Text, Value)>, key: Text): Option<Value> {
    if fields == [] then None
    else if fields[0].0 == key then Some(fields[0].1)
    else Find(fields[1..], key)
  }

  /** `v[key]`, None for undefined. */
  function Lookup(v: Value, key: Text): Option<Value> {
    if v.Obj? then Find(v.fields, key) else None
  }

  predicate TextIs(v: Value, key: Text, expected: Text) {
    Lookup(v, key) == Some(Str(expected))
  }

  function Record(keys: seq<Text>, values: seq<Value>): (v: Value)
    requires |keys| == |values|
  {
    Obj(seq(|keys|, i requires 0 <= i < |keys| => (keys[i], values[i])))
  }

  const DOMAIN: Text := T("domain")
  const EPOCH_ID: Text := T("epochId")
  const WORKSPACE: Text := T("workspace")
  const POLICY_HASH: Text := T("policyHash")
  const ROSTER_HASH: Text := T("rosterHash")
  const WEIGHTS_HASH: Text := T("weightsHash")
  const SUBMISSION_ROOT: Text := T("submissionRoot")
  const CUTOFF_AT: Text := T("cutoffAt")
  const START_AT: Text := T("startAt")
  const END_AT: Text := T("endAt")
  const SEALED_AT: Text := T("sealedAt")
  const PREVIOUS_HASH: Text := T("previousManifestHash")
  const CLOCK: Text := T("clock")
  const PROVIDER_ID: Text := T("providerId")
  const STATUS: Text := T("status")
  const PAYLOAD_HASH: Text := T("payloadHash")
  const SALT: Text := T("salt")
  const ID: Text := T("id")
  const PUBLIC_KEY: Text := T("publicKey")
  const PAYLOAD: Text := T("payload")
  const SIGNATURE: Text := T("signature")
  const VERSION: Text := T("version")
  const NONCE: Text := T("nonce")
  const UNIVERSE_KEY: Text := T("universe")
  const VECTOR: Text := T("vectorBps")

  const EPOCH_DOMAIN: Text := T("MM_ALPHA_EPOCH_V1")
  const SUBMISSION_DOMAIN: Text := T("MM_ALPHA_SUBMISSION_V1")
  const SUBMITTED: Text := T("SUBMITTED")
  const MISSED: Text := T("MISSED")
  const DEMO: Text := T("demo")
  const SIMULATED: Text := T("SIMULATED")
  const WALL: Text := T("WALL")
  /** The names of a payload's fields, in the order of their code units, joined. */
  const PAYLOAD_FIELDS: Text := Join([EPOCH_ID, NONCE, POLICY_HASH, PROVIDER_ID, UNIVERSE_KEY, VECTOR, VERSION])
  const UNIVERSE: Value := Arr([Str(T("BTC")), Str(T("ETH")), Str(T("MON")), Str(T("SOL"))])
  const ASSETS := 4
  const BPS := 10000

  const LEAF_KEYS: seq<Text> := [DOMAIN, EPOCH_ID, PROVIDER_ID, STATUS, PAYLOAD_HASH]
  const MISSED_KEYS: seq<Text> := [DOMAIN, EPOCH_ID, PROVIDER_ID, STATUS, SALT]
  const MANIFEST_KEYS: seq<Text> := [
    DOMAIN, EPOCH_ID, WORKSPACE, POLICY_HASH, ROSTER_HASH, WEIGHTS_HASH, SUBMISSION_ROOT, CUTOFF_AT, START_AT, END_AT,
    SEALED_AT, PREVIOUS_HASH, CLOCK]

  // ---------------------------------------------------------------------------------------------
  // Epochs

  /** What the service holds keys for: opening an envelope (None when it throws) and checking a signature. */
  datatype Keys = Keys(decrypt: Text -> Option<Value>, verify: (Text, Value, Value) -> bool)

  datatype Submission = Submission(envelope: Text, acceptedAt: Text, payloadHash: Text, leaf: Value, leafHash: Text)

  datatype Epoch = Epoch(
    id: Text, workspace: Text, policy: Value, policyHash: Text, roster: Value, weightsBps: Value,
    cutoffAt: Text, startAt: Text, endAt: Text,
    submissions: seq<(Text, Submission)>, leaves: seq<Value>, proofs: seq<seq<Sibling>>,
    root: Option<Text>, manifest: Value, manifestHash: Option<Text>)

  datatype Row = Row(id: Text, vector: Option<seq<int>>)

  function SubmittedLeaf(epochId: Text, providerId: Text, payloadHash: Text): Value {
    Record(LEAF_KEYS, [Str(SUBMISSION_DOMAIN), Str(epochId), Str(providerId), Str(SUBMITTED), Str(payloadHash)])
  }

  function MissedLeaf(epochId: Text, providerId: Text, salt: Text): Value {
    Record(MISSED_KEYS, [Str(SUBMISSION_DOMAIN), Str(epochId), Str(providerId), Str(MISSED), Str(salt)])
  }

  predicate IsHex32(t: Text) {
    |t| == 64 && forall i :: 0 <= i < 64 ==> ZERO <= t[i] < ZERO + 10 || LETTER_A <= t[i] <= LETTER_F
  }

  predicate HasHex32(v: Value, key: Text) {
    Lookup(v, key).Some? && Lookup(v, key).value.Str? && IsHex32(Lookup(v, key).value.s)
  }

  /** `Object.keys(v).sort().join(',')` */
  function KeyList(v: Value): Text
    requires v.Obj?
  {
    Join(SortedKeys(v.fields))
  }

  function SortedKeys(fields: seq<(Text, Value)>): seq<Text> {
    KeysOf(KeysSorted(fields))
  }

  function KeysSorted(fields: seq<(Text, Value)>): seq<(Text, ())> {
    if fields == [] then [] else Insert(fields[0].0, (), KeysSorted(fields[1..]))
  }

  function KeysOf(entries: seq<(Text, ())>): seq<Text> {
    if entries == [] then [] else [entries[0].0] + KeysOf(entries[1..])
  }

  /** The vector of a payload, if it has one: four integers of at most 10000 basis points either way. */
  function VectorOf(payload: Value): Option<seq<int>> {
    match Lookup(payload, VECTOR)
    case None => None
    case Some(v) =>
      if v.Arr? && |v.items| == ASSETS && forall i :: 0 <= i < ASSETS ==> v.items[i].Num? && -BPS <= v.items[i].n <= BPS
      then Some([v.items[0].n, v.items[1].n, v.items[2].n, v.items[3].n])
      else None
  }

  /** Exactly the fields of protocol version 1. */
  predicate HasFields(payload: Value) {
    payload.Obj? && KeyList(payload) == PAYLOAD_FIELDS
  }

  predicate HasVersion(payload: Value) {
    Lookup(payload, VERSION) == Some(Num(1)) && HasHex32(payload, NONCE)
  }

  predicate HasPolicy(payload: Value, policyHash: Text) {
    && TextIs(payload, POLICY_HASH, policyHash)
    && Lookup(payload, UNIVERSE_KEY).Some?
    && CanonicalJson(Lookup(payload, UNIVERSE_KEY).value) == CanonicalJson(UNIVERSE)
  }

  /** A whole payload, addressed to this provider in this epoch under this policy. */
  predicate WellAddressed(payload: Value, epochId: Text, policyHash: Text, providerId: Text) {
    && HasFields(payload) && HasVersion(payload)
    && TextIs(payload, PROVIDER_ID, providerId) && TextIs(payload, EPOCH_ID, epochId)
    && HasPolicy(payload, policyHash)
    && VectorOf(payload).Some?
  }

  /** `verifyObject(payload, signature, publicKey)` */
  predicate Signed(keys: Keys, content: Value, payload: Value, provider: Value) {
    && CanonicalJson(payload).Ok?
    && Lookup(content, SIGNATURE).Some? && Lookup(provider, PUBLIC_KEY).Some?
    && keys.verify(CanonicalJson(payload).value, Lookup(content, SIGNATURE).value, Lookup(provider, PUBLIC_KEY).value)
  }

  /** The payload in an envelope, None where opening it throws or there is none. */
  function Opened(keys: Keys, envelope: Text): Option<Value> {
    match keys.decrypt(envelope)
    case None => None
    case Some(v) => Lookup(v, PAYLOAD)
  }

  function FindSubmission(submissions: seq<(Text, Submission)>, id: Text): Option<Submission> {
    if submissions == [] then None
    else if submissions[0].0 == id then Some(submissions[0].1)
    else FindSubmission(submissions[1..], id)
  }

  /** The id of a roster entry; entries without a text id are refused. */
  function IdOf(provider: Value): Option<Text> {
    match Lookup(provider, ID)
    case Some(v) => if v.Str? then Some(v.s) else None
    case None => None
  }

  // ---------------------------------------------------------------------------------------------
  // submitInternal, for the epoch it names

  datatype Rejection =
    | NotOpened | BadPayload | BadFields | BadVersion | WrongEpoch | NotOnRoster | WrongPolicy | BadVector
    | BadSignature | DifferentSubmission | CutoffPassed

  function FindProvider(items: seq<Value>, id: Text): Option<Value> {
    if items == [] then None
    else if IdOf(items[0]) == Some(id) then Some(items[0])
    else FindProvider(items[1..], id)
  }

  function SubmissionFor(e: Epoch, envelope: Text, now: Text, providerId: Text, payloadHash: Text, leafHash: Text)
    : Submission
  {
    Submission(envelope, now, payloadHash, SubmittedLeaf(e.id, providerId, payloadHash), leafHash)
  }

  /** The epoch after a submission; a repeated one changes nothing. `open` says that at `now` the window has not closed. */
  function Submit(keys: Keys, e: Epoch, envelope: Text, open: bool, now: Text): Result<Epoch, Rejection> {
    var content := keys.decrypt(envelope);
    :- Need(content.Some?, NotOpened);
    var payload := Opened(keys, envelope);
    :- Need(payload.Some? && payload.value.Obj?, BadPayload);
    :- Need(HasFields(payload.value), BadFields);
    :- Need(HasVersion(payload.value), BadVersion);
    :- Need(TextIs(payload.value, EPOCH_ID, e.id), WrongEpoch);
    var named := Lookup(payload.value, PROVIDER_ID);
    :- Need(named.Some? && named.value.Str? && e.roster.Arr?, NotOnRoster);
    var provider := FindProvider(e.roster.items, named.value.s);
    :- Need(provider.Some?, NotOnRoster);
    :- Need(HasPolicy(payload.value, e.policyHash), WrongPolicy);
    :- Need(VectorOf(payload.value).Some?, BadVector);
    :- Need(Signed(keys, content.value, payload.value, provider.value), BadSignature);
    var payloadHash, leafHash := HashText(payload.value), LeafText(e, named.value.s, payload.value);
    :- Need(payloadHash.Some? && leafHash.Some?, BadPayload);
    var existing := FindSubmission(e.submissions, named.value.s);
    if existing.Some? then
      :- Need(existing.value.payloadHash == payloadHash.value, DifferentSubmission);
      Ok(e)
    else
      :- Need(open, CutoffPassed);
      var submission := SubmissionFor(e, envelope, now, named.value.s, payloadHash.value, leafHash.value);
      Ok(e.(submissions := e.submissions + [(named.value.s, submission)]))
  }

  /** The leaf hash of the leaf a payload gets, None where printing throws. */
  function LeafText(e: Epoch, providerId: Text, payload: Value): Option<Text> {
    match HashText(payload)
    case None => None
    case Some(h) =>
      match LeafHash(SubmittedLeaf(e.id, providerId, h))
      case Ok(d) => Some(Name(d))
      case Err(_) => None
  }

  // ---------------------------------------------------------------------------------------------
  // freezeRoot

  /** The leaf of each provider: its submission's, or a salted one for a miss. None where there is no text id. */
  function LeavesOf(e: Epoch, items: seq<Value>, salts: seq<Text>): Option<seq<Value>>
    requires |salts| == |items|
  {
    if items == [] then Some([])
    else
      match IdOf(items[0])
      case None => None
      case Some(id) =>
        var submission := FindSubmission(e.submissions, id);
        var leaf := if submission.Some? then submission.value.leaf else MissedLeaf(e.id, id, salts[0]);
        match LeavesOf(e, items[1..], salts[1..])
        case None => None
        case Some(rest) => Some([leaf] + rest)
  }

  function ManifestOf(e: Epoch, rosterHash: Text, weightsHash: Text, root: Text, sealedAt: Text, previous: Value): Value {
    Record(MANIFEST_KEYS, [
      Str(EPOCH_DOMAIN), Str(e.id), Str(e.workspace), Str(e.policyHash), Str(rosterHash), Str(weightsHash), Str(root),
      Str(e.cutoffAt), Str(e.startAt), Str(e.endAt), Str(sealedAt), previous,
      Str(if e.workspace == DEMO then SIMULATED else WALL)])
  }

  /** None where it throws: an empty roster, or a document without a canonical text. */
  function Freeze(e: Epoch, salts: seq<Text>, sealedAt: Text, previous: Value): Option<Epoch>
    requires e.roster.Arr? ==> |salts| == |e.roster.items|
  {
    if !e.roster.Arr? then None
    else
      match LeavesOf(e, e.roster.items, salts)
      case None => None
      case Some(leaves) =>
        match TreeOf(leaves)
        case Err(_) => None
        case Ok(tree) =>
          match (HashText(e.roster), HashText(e.weightsBps))
          case (Some(rosterHash), Some(weightsHash)) =>
            var manifest := ManifestOf(e, rosterHash, weightsHash, Name(tree.root), sealedAt, previous);
            if HashText(manifest).None? then None
            else Some(e.(leaves := leaves, proofs := tree.proofs, root := Some(Name(tree.root)), manifest := manifest,
                         manifestHash := HashText(manifest)))
          case _ => None
  }

  // ---------------------------------------------------------------------------------------------
  // payloadProviders

  predicate Committed(e: Epoch) {
    && e.root.Some? && e.manifestHash.Some?
    && HashText(e.policy) == Some(e.policyHash)
    && TextIs(e.manifest, DOMAIN, EPOCH_DOMAIN) && HashText(e.manifest) == e.manifestHash
    && TextIs(e.manifest, EPOCH_ID, e.id) && TextIs(e.manifest, WORKSPACE, e.workspace)
    && TextIs(e.manifest, POLICY_HASH, e.policyHash) && TextIs(e.manifest, SUBMISSION_ROOT, e.root.value)
    && HashText(e.roster).Some? && TextIs(e.manifest, ROSTER_HASH, HashText(e.roster).value)
    && HashText(e.weightsBps).Some? && TextIs(e.manifest, WEIGHTS_HASH, HashText(e.weightsBps).value)
    && e.roster.Arr? && |e.leaves| == |e.roster.items|
    && TreeOf(e.leaves).Ok? && Name(TreeOf(e.leaves).value.root) == e.root.value
    && DistinctIds(e.roster.items)
    && forall i :: 0 <= i < |e.submissions| ==> FindProvider(e.roster.items, e.submissions[i].0).Some?
  }

  predicate DistinctIds(items: seq<Value>) {
    && (forall i :: 0 <= i < |items| ==> IdOf(items[i]).Some?)
    && (forall i, j :: 0 <= i < j < |items| ==> IdOf(items[i]) != IdOf(items[j]))
  }

  /** One provider's row, None where a check fails. */
  function RowOf(keys: Keys, e: Epoch, provider: Value, leaf: Value): Option<Row> {
    match IdOf(provider)
    case None => None
    case Some(id) =>
      if !TextIs(leaf, DOMAIN, SUBMISSION_DOMAIN) || !TextIs(leaf, EPOCH_ID, e.id) || !TextIs(leaf, PROVIDER_ID, id) then
        None
      else
        match FindSubmission(e.submissions, id)
        case None => if TextIs(leaf, STATUS, MISSED) && HasHex32(leaf, SALT) then Some(Row(id, None)) else None
        case Some(submission) =>
          if SubmissionBinds(keys, e, provider, id, submission)
             && CanonicalJson(leaf) == CanonicalJson(LeafFor(keys, e, id, submission))
          then Some(Row(id, VectorOf(Opened(keys, submission.envelope).value)))
          else None
  }

  /** The leaf a submission must have: the one of the payload in its envelope. */
  function LeafFor(keys: Keys, e: Epoch, id: Text, submission: Submission): Value {
    var payload := Opened(keys, submission.envelope);
    var h := if payload.Some? then HashText(payload.value) else None;
    SubmittedLeaf(e.id, id, if h.Some? then h.value else [])
  }

  /** The stored submission, its envelope and its leaf belong together and to this provider. */
  predicate SubmissionBinds(keys: Keys, e: Epoch, provider: Value, id: Text, submission: Submission) {
    var content, payload := keys.decrypt(submission.envelope), Opened(keys, submission.envelope);
    && content.Some? && payload.Some?
    && WellAddressed(payload.value, e.id, e.policyHash, id)
    && Signed(keys, content.value, payload.value, provider)
    && HashText(payload.value) == Some(submission.payloadHash)
    && CanonicalJson(LeafFor(keys, e, id, submission)).Ok?
    && CanonicalJson(submission.leaf) == CanonicalJson(LeafFor(keys, e, id, submission))
    && LeafText(e, id, payload.value) == Some(submission.leafHash)
  }

  function RowsFrom(keys: Keys, e: Epoch, items: seq<Value>, leaves: seq<Value>): Option<seq<Row>>
    requires |items| == |leaves|
  {
    if items == [] then Some([])
    else
      match RowOf(keys, e, items[0], leaves[0])
      case None => None
      case Some(row) =>
        match RowsFrom(keys, e, items[1..], leaves[1..])
        case None => None
        case Some(rest) => Some([row] + rest)
  }

  /** Every provider's vector or miss, None where the operation is rejected. */
  function PayloadProviders(keys: Keys, e: Epoch): Option<seq<Row>> {
    if Committed(e) then RowsFrom(keys, e, e.roster.items, e.leaves) else None
  }
}
