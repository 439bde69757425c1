/** A frozen epoch reads back as it was frozen, and nothing that keeps the manifest hash reads back differently. */
module CommitmentLaws {
  import opened Prelude
  import opened Canonical
  import opened CanonicalLaws
  import opened Merkle
  import opened MerkleLaws
  import opened Commitment

  // ---------------------------------------------------------------------------------------------
  // The text of a digest tells the digest

  lemma {:induction false} NameUnitsEnd(a: Text, b: Text, r: Text, t: Text)
    requires NameUnits(a) + r == NameUnits(b) + t
    ensures a == b && r == t
  {
    UnitsOpen(a, r);
    UnitsOpen(b, t);
    if a == [] || b == [] {
      Split([3 as Unit], [3], r, t);
    } else {
      Split([2 as Unit, a[0]], [2, b[0]], NameUnits(a[1..]) + r, NameUnits(b[1..]) + t);
      NameUnitsEnd(a[1..], b[1..], r, t);
    }
  }

  lemma UnitsOpen(a: Text, r: Text)
    ensures NameUnits(a) + r == if a == [] then [3] + r else [2, a[0]] + (NameUnits(a[1..]) + r)
    ensures (NameUnits(a) + r)[0] == if a == [] then 3 else 2
  {
    if a != [] {
      assert [2, a[0]] + NameUnits(a[1..]) + r == [2, a[0]] + (NameUnits(a[1..]) + r);
    }
  }

  lemma {:induction false} CountEnd(m: nat, n: nat, r: Text, t: Text)
    requires Count(m) + r == Count(n) + t
    ensures m == n && r == t
  {
    CountOpen(m, r);
    CountOpen(n, t);
    if m == 0 || n == 0 {
      Split([3 as Unit], [3], r, t);
    } else {
      Split([2 as Unit], [2], Count(m - 1) + r, Count(n - 1) + t);
      CountEnd(m - 1, n - 1, r, t);
    }
  }

  lemma CountOpen(n: nat, r: Text)
    ensures Count(n) + r == if n == 0 then [3] + r else [2] + (Count(n - 1) + r)
    ensures (Count(n) + r)[0] == if n == 0 then 3 else 2
  {
    if n > 0 {
      assert [2] + Count(n - 1) + r == [2] + (Count(n - 1) + r);
    }
  }

  function Tag(d: Digest): Unit {
    match d
    case OfText(_) => 1
    case OfPair(_, _) => 4
    case Other(_) => 5
    case Malformed(_) => 6
  }

  function NameRest(d: Digest): Text {
    match d
    case OfText(t) => NameUnits(t)
    case OfPair(left, right) => Name(left) + Name(right)
    case Other(n) => Count(n)
    case Malformed(n) => Count(n)
  }

  lemma NameOpen(d: Digest, r: Text)
    ensures Name(d) + r == [Tag(d)] + (NameRest(d) + r)
  {
    if d.OfPair? {
      var x, y := Name(d.left), Name(d.right);
      assert [4] + x + y + r == [4] + (x + y + r);
    }
  }

  lemma {:induction false} NameEnd(d: Digest, e: Digest, r: Text, t: Text)
    requires Name(d) + r == Name(e) + t
    ensures d == e && r == t
    decreases d
  {
    hide Name;
    NameOpen(d, r);
    NameOpen(e, t);
    Split([Tag(d)], [Tag(e)], NameRest(d) + r, NameRest(e) + t);
    assert Tag(d) == [Tag(d)][0] == [Tag(e)][0] == Tag(e);
    match d
    case OfText(text) => NameUnitsEnd(text, e.text, r, t);
    case OfPair(left, right) =>
      assert Name(left) + Name(right) + r == Name(left) + (Name(right) + r);
      assert Name(e.left) + Name(e.right) + t == Name(e.left) + (Name(e.right) + t);
      NameEnd(left, e.left, Name(right) + r, Name(e.right) + t);
      NameEnd(right, e.right, r, t);
    case Other(n) => CountEnd(n, e.id, r, t);
    case Malformed(n) => CountEnd(n, e.id, r, t);
  }

  lemma NameBinds(d: Digest, e: Digest)
    requires Name(d) == Name(e)
    ensures d == e
  {
    hide Name;
    NameEnd(d, e, [], []);
  }

  /** Documents whose hash texts agree are the same document, up to the order of keys. */
  lemma HashTextBinds(v: Value, w: Value)
    requires WellFormed(v) && WellFormed(w) && !v.Str? && !w.Str?
    requires HashText(v).Some? && HashText(v) == HashText(w)
    ensures Same(v, w)
  {
    hide WellFormed, Same, Name, CanonicalJson;
    NameBinds(Hash(v).value, Hash(w).value);
    HashedAlikeIff(v, w);
  }

  // ---------------------------------------------------------------------------------------------
  // Properties of objects

  lemma {:induction false} FindAt(fields: seq<(Text, Value)>, i: nat)
    requires DistinctKeys(fields) && i < |fields|
    ensures Find(fields, fields[i].0) == Some(fields[i].1)
  {
    if i > 0 {
      FindAt(fields[1..], i - 1);
    }
  }

  lemma {:induction false} FindIndex(fields: seq<(Text, Value)>, key: Text) returns (i: nat)
    requires Find(fields, key).Some?
    ensures i < |fields| && fields[i].0 == key && Find(fields, key) == Some(fields[i].1)
  {
    if fields[0].0 == key {
      i := 0;
    } else {
      var j := FindIndex(fields[1..], key);
      i := j + 1;
    }
  }

  lemma SameFind(v: Value, w: Value, key: Text)
    requires Same(v, w) && WellFormed(v) && WellFormed(w) && Lookup(v, key).Some?
    ensures Lookup(w, key).Some? && Same(Lookup(v, key).value, Lookup(w, key).value)
  {
    hide Find, Same, DistinctKeys, WellFormedFields;
    var i := FindIndex(v.fields, key);
    var j := Matching(v, w, i);
    FindAt(w.fields, j);
  }

  lemma Matching(v: Value, w: Value, i: nat) returns (j: nat)
    requires v.Obj? && Same(v, w) && i < |v.fields|
    ensures w.Obj? && j < |w.fields| && w.fields[j].0 == v.fields[i].0 && Same(v.fields[i].1, w.fields[j].1)
  {
    assert FieldsIn(v.fields, w.fields);
    assert FieldIn(v.fields[i], w.fields);
    var k :| 0 <= k < |w.fields| && SameField(v.fields[i], w.fields[k]);
    j := k;
  }

  lemma SameText(v: Value, w: Value, key: Text, t: Text)
    requires Same(v, w) && WellFormed(v) && WellFormed(w) && TextIs(v, key, t)
    ensures TextIs(w, key, t)
  {
    hide Lookup, WellFormed;
    SameFind(v, w, key);
  }

  lemma {:induction false} WellFormedLookup(v: Value, key: Text)
    requires WellFormed(v) && Lookup(v, key).Some?
    ensures WellFormed(Lookup(v, key).value)
  {
    hide Find;
    var i := FindIndex(v.fields, key);
    WellFormedFieldAt(v.fields, i);
  }

  lemma SameVector(v: Value, w: Value)
    requires Same(v, w) && WellFormed(v) && WellFormed(w) && VectorOf(v).Some?
    ensures VectorOf(v) == VectorOf(w)
  {
    hide Lookup, WellFormed;
    SameFind(v, w, VECTOR);
    var a, b := Lookup(v, VECTOR).value, Lookup(w, VECTOR).value;
    SameNumbers(a, b);
  }

  lemma SameNumbers(a: Value, b: Value)
    requires Same(a, b) && a.Arr? && forall i :: 0 <= i < |a.items| ==> a.items[i].Num?
    ensures a == b
  {
    assert b.Arr? && |a.items| == |b.items|;
    forall i | 0 <= i < |a.items| ensures a.items[i] == b.items[i] {
      assert Same(a.items[i], b.items[i]);
    }
    assert a.items == b.items;
  }

  ghost predicate DistinctTexts(keys: seq<Text>) {
    forall i, j :: 0 <= i < j < |keys| ==> keys[i] != keys[j]
  }

  lemma RecordFacts(keys: seq<Text>, values: seq<Value>)
    requires |keys| == |values| && DistinctTexts(keys)
    requires forall i :: 0 <= i < |values| ==> WellFormed(values[i])
    ensures WellFormed(Record(keys, values))
    ensures forall i :: 0 <= i < |keys| ==> Lookup(Record(keys, values), keys[i]) == Some(values[i])
  {
    var v := Record(keys, values);
    assert DistinctKeys(v.fields);
    FieldsWellFormed(v.fields);
    forall i | 0 <= i < |keys| ensures Lookup(v, keys[i]) == Some(values[i]) {
      FindAt(v.fields, i);
    }
  }

  lemma {:induction false} FieldsWellFormed(fields: seq<(Text, Value)>)
    requires forall i :: 0 <= i < |fields| ==> WellFormed(fields[i].1)
    ensures WellFormedFields(fields)
    decreases |fields|
  {
    hide WellFormed;
    if fields != [] {
      FieldsWellFormed(fields[1..]);
    }
  }

  lemma {:induction false} FieldsClean(fields: seq<(Text, Value)>)
    requires forall i :: 0 <= i < |fields| ==> Clean(fields[i].1)
    ensures CleanFields(fields)
    decreases |fields|
  {
    hide Clean;
    if fields != [] {
      FieldsClean(fields[1..]);
    }
  }

  lemma RecordIsClean(keys: seq<Text>, values: seq<Value>)
    requires |keys| == |values| && forall i :: 0 <= i < |values| ==> Clean(values[i])
    ensures Clean(Record(keys, values))
  {
    FieldsClean(Record(keys, values).fields);
  }

  lemma LeafKeysDiffer()
    ensures DistinctTexts(LEAF_KEYS) && DistinctTexts(MISSED_KEYS)
  {
    assert T("status")[0] != T("domain")[0];
    assert |DOMAIN| == 6 && |EPOCH_ID| == 7 && |PROVIDER_ID| == 10 && |STATUS| == 6 && |PAYLOAD_HASH| == 11 && |SALT| == 4;
  }

  lemma ManifestKeyShapes()
    ensures |DOMAIN| == 6 && |EPOCH_ID| == 7 && |WORKSPACE| == 9 && |POLICY_HASH| == 10 && |ROSTER_HASH| == 10
    ensures |WEIGHTS_HASH| == 11 && |SUBMISSION_ROOT| == 14 && |CUTOFF_AT| == 8 && |START_AT| == 7 && |END_AT| == 5
    ensures |SEALED_AT| == 8 && |PREVIOUS_HASH| == 20 && |CLOCK| == 5
    ensures EPOCH_ID[0] != START_AT[0] && POLICY_HASH[0] != ROSTER_HASH[0] && CUTOFF_AT[0] != SEALED_AT[0]
    ensures END_AT[0] != CLOCK[0]
  {
    assert T("epochId")[0] != T("startAt")[0] && T("policyHash")[0] != T("rosterHash")[0];
    assert T("cutoffAt")[0] != T("sealedAt")[0] && T("endAt")[0] != T("clock")[0];
  }

  lemma ManifestKeysDiffer()
    ensures DistinctTexts(MANIFEST_KEYS)
  {
    hide T;
    ManifestKeyShapes();
  }

  /** Two texts that say different things. */
  lemma LiteralsDiffer()
    ensures SUBMITTED != MISSED
  {
    assert |SUBMITTED| == 9 && |MISSED| == 6;
  }

  lemma SubmittedLeafFacts(epochId: Text, id: Text, h: Text)
    ensures var leaf := SubmittedLeaf(epochId, id, h);
      && WellFormed(leaf) && Clean(leaf)
      && TextIs(leaf, DOMAIN, SUBMISSION_DOMAIN) && TextIs(leaf, EPOCH_ID, epochId) && TextIs(leaf, PROVIDER_ID, id)
      && TextIs(leaf, STATUS, SUBMITTED) && TextIs(leaf, PAYLOAD_HASH, h)
  {
    hide T, Lookup, Record;
    var values := [Str(SUBMISSION_DOMAIN), Str(epochId), Str(id), Str(SUBMITTED), Str(h)];
    LeafKeysDiffer();
    RecordFacts(LEAF_KEYS, values);
    RecordIsClean(LEAF_KEYS, values);
    assert Lookup(Record(LEAF_KEYS, values), LEAF_KEYS[0]) == Some(values[0]);
    assert Lookup(Record(LEAF_KEYS, values), LEAF_KEYS[1]) == Some(values[1]);
    assert Lookup(Record(LEAF_KEYS, values), LEAF_KEYS[2]) == Some(values[2]);
    assert Lookup(Record(LEAF_KEYS, values), LEAF_KEYS[3]) == Some(values[3]);
    assert Lookup(Record(LEAF_KEYS, values), LEAF_KEYS[4]) == Some(values[4]);
  }

  lemma MissedLeafFacts(epochId: Text, id: Text, salt: Text)
    ensures var leaf := MissedLeaf(epochId, id, salt);
      && WellFormed(leaf) && Clean(leaf)
      && TextIs(leaf, DOMAIN, SUBMISSION_DOMAIN) && TextIs(leaf, EPOCH_ID, epochId) && TextIs(leaf, PROVIDER_ID, id)
      && TextIs(leaf, STATUS, MISSED) && TextIs(leaf, SALT, salt)
  {
    hide T, Lookup, Record;
    var values := [Str(SUBMISSION_DOMAIN), Str(epochId), Str(id), Str(MISSED), Str(salt)];
    LeafKeysDiffer();
    RecordFacts(MISSED_KEYS, values);
    RecordIsClean(MISSED_KEYS, values);
    assert Lookup(Record(MISSED_KEYS, values), MISSED_KEYS[0]) == Some(values[0]);
    assert Lookup(Record(MISSED_KEYS, values), MISSED_KEYS[1]) == Some(values[1]);
    assert Lookup(Record(MISSED_KEYS, values), MISSED_KEYS[2]) == Some(values[2]);
    assert Lookup(Record(MISSED_KEYS, values), MISSED_KEYS[3]) == Some(values[3]);
    assert Lookup(Record(MISSED_KEYS, values), MISSED_KEYS[4]) == Some(values[4]);
  }

  /** What a manifest says, under the names a reader of it looks for. */
  ghost predicate Says(
      m: Value, e: Epoch, rosterHash: Text, weightsHash: Text, root: Text, sealedAt: Text, previous: Value)
  {
    && TextIs(m, T("domain"), T("MM_ALPHA_EPOCH_V1")) && TextIs(m, T("epochId"), e.id)
    && TextIs(m, T("workspace"), e.workspace) && TextIs(m, T("policyHash"), e.policyHash)
    && TextIs(m, T("rosterHash"), rosterHash) && TextIs(m, T("weightsHash"), weightsHash)
    && TextIs(m, T("submissionRoot"), root) && TextIs(m, T("cutoffAt"), e.cutoffAt)
    && TextIs(m, T("startAt"), e.startAt) && TextIs(m, T("endAt"), e.endAt)
    && TextIs(m, T("sealedAt"), sealedAt) && Lookup(m, T("previousManifestHash")) == Some(previous)
    && TextIs(m, T("clock"), if e.workspace == T("demo") then T("SIMULATED") else T("WALL"))
  }

  lemma ManifestFacts(e: Epoch, rosterHash: Text, weightsHash: Text, root: Text, sealedAt: Text, previous: Value)
    requires WellFormed(previous)
    ensures var m := ManifestOf(e, rosterHash, weightsHash, root, sealedAt, previous);
      WellFormed(m) && Says(m, e, rosterHash, weightsHash, root, sealedAt, previous)
  {
    hide T, Lookup, Record, DistinctTexts;
    var values := [
      Str(EPOCH_DOMAIN), Str(e.id), Str(e.workspace), Str(e.policyHash), Str(rosterHash), Str(weightsHash), Str(root),
      Str(e.cutoffAt), Str(e.startAt), Str(e.endAt), Str(sealedAt), previous,
      Str(if e.workspace == DEMO then SIMULATED else WALL)];
    ManifestKeysDiffer();
    RecordFacts(MANIFEST_KEYS, values);
    var m := Record(MANIFEST_KEYS, values);
    assert forall i :: 0 <= i < 13 ==> Lookup(m, MANIFEST_KEYS[i]) == Some(values[i]);
    SaysEach(m, values);
  }

  lemma SaysEach(m: Value, values: seq<Value>)
    requires |values| == 13 && forall i :: 0 <= i < 13 ==> Lookup(m, MANIFEST_KEYS[i]) == Some(values[i])
    ensures Lookup(m, DOMAIN) == Some(values[0]) && Lookup(m, EPOCH_ID) == Some(values[1])
    ensures Lookup(m, WORKSPACE) == Some(values[2]) && Lookup(m, POLICY_HASH) == Some(values[3])
    ensures Lookup(m, ROSTER_HASH) == Some(values[4]) && Lookup(m, WEIGHTS_HASH) == Some(values[5])
    ensures Lookup(m, SUBMISSION_ROOT) == Some(values[6]) && Lookup(m, CUTOFF_AT) == Some(values[7])
    ensures Lookup(m, START_AT) == Some(values[8]) && Lookup(m, END_AT) == Some(values[9])
    ensures Lookup(m, SEALED_AT) == Some(values[10]) && Lookup(m, PREVIOUS_HASH) == Some(values[11])
    ensures Lookup(m, CLOCK) == Some(values[12])
  {
    hide T, Lookup;
    assert MANIFEST_KEYS[0] == DOMAIN && MANIFEST_KEYS[1] == EPOCH_ID && MANIFEST_KEYS[2] == WORKSPACE;
    assert MANIFEST_KEYS[3] == POLICY_HASH && MANIFEST_KEYS[4] == ROSTER_HASH && MANIFEST_KEYS[5] == WEIGHTS_HASH;
    assert MANIFEST_KEYS[6] == SUBMISSION_ROOT && MANIFEST_KEYS[7] == CUTOFF_AT && MANIFEST_KEYS[8] == START_AT;
    assert MANIFEST_KEYS[9] == END_AT && MANIFEST_KEYS[10] == SEALED_AT && MANIFEST_KEYS[11] == PREVIOUS_HASH;
    assert MANIFEST_KEYS[12] == CLOCK;
  }

  // ---------------------------------------------------------------------------------------------
  // The epoch while it is open

  ghost predicate JsonKeys(keys: Keys) {
    forall envelope :: keys.decrypt(envelope).Some? ==> WellFormed(keys.decrypt(envelope).value)
  }

  /** A stored submission is the accepted one of a provider on the roster. */
  ghost predicate Accepted(keys: Keys, e: Epoch, id: Text, submission: Submission) {
    && e.roster.Arr? && FindProvider(e.roster.items, id).Some?
    && SubmissionBinds(keys, e, FindProvider(e.roster.items, id).value, id, submission)
    && submission.leaf == LeafFor(keys, e, id, submission)
  }

  /** An epoch as the service writes it: a printable roster of distinct ids, and accepted submissions only. */
  ghost predicate Honest(keys: Keys, e: Epoch) {
    && e.roster.Arr? && WellFormed(e.roster) && DistinctIds(e.roster.items)
    && HashText(e.policy) == Some(e.policyHash)
    && forall i :: 0 <= i < |e.submissions| ==> Accepted(keys, e, e.submissions[i].0, e.submissions[i].1)
  }

  /** Submitting keeps the epoch honest and everything accepted before in place. */
  lemma SubmitKeeps(keys: Keys, e: Epoch, envelope: Text, stillOpen: bool, now: Text)
    requires Honest(keys, e) && Submit(keys, e, envelope, stillOpen, now).Ok?
    ensures var after := Submit(keys, e, envelope, stillOpen, now).value;
      && Honest(keys, after)
      && e.submissions <= after.submissions
      && after == e.(submissions := after.submissions)
  {
    hide WellAddressed, Signed, HashText, SubmittedLeaf, DistinctIds, WellFormed, KeyList, HasHex32, VectorOf, TextIs,
      CanonicalJson, FindProvider, FindSubmission, LeafHash;
    var after := Submit(keys, e, envelope, stillOpen, now).value;
    if after != e {
      SubmittedIsAccepted(keys, e, envelope, stillOpen, now);
      forall i | 0 <= i < |after.submissions|
        ensures Accepted(keys, after, after.submissions[i].0, after.submissions[i].1)
      {
        if i < |e.submissions| {
          assert Accepted(keys, e, e.submissions[i].0, e.submissions[i].1);
        }
      }
    }
  }

  lemma SubmittedIsAccepted(keys: Keys, e: Epoch, envelope: Text, stillOpen: bool, now: Text)
    requires Submit(keys, e, envelope, stillOpen, now).Ok? && Submit(keys, e, envelope, stillOpen, now).value != e
    ensures var after := Submit(keys, e, envelope, stillOpen, now).value;
      && |after.submissions| == |e.submissions| + 1 && after.submissions[..|e.submissions|] == e.submissions
      && after == e.(submissions := after.submissions)
      && var last := after.submissions[|e.submissions|]; Accepted(keys, after, last.0, last.1)
  {
    hide Signed, HashText, DistinctIds, WellFormed, KeyList, HasHex32, VectorOf, CanonicalJson,
      FindProvider, FindSubmission, LeafHash, HasFields, HasVersion, HasPolicy, Name, SubmittedLeaf;
    var payload := Opened(keys, envelope).value;
    var id := Lookup(payload, PROVIDER_ID).value.s;
    SubmittedLeafFacts(e.id, id, HashText(payload).value);
    RefusesIff(SubmittedLeaf(e.id, id, HashText(payload).value));
  }

  // ---------------------------------------------------------------------------------------------
  // What freezing commits to

  /** The row of a provider as accepted before the freeze: its vector, or a miss. */
  function CommittedRow(keys: Keys, e: Epoch, provider: Value): Row
    requires IdOf(provider).Some?
  {
    var id := IdOf(provider).value;
    match FindSubmission(e.submissions, id)
    case None => Row(id, None)
    case Some(submission) =>
      Row(id, if Opened(keys, submission.envelope).Some? then VectorOf(Opened(keys, submission.envelope).value) else None)
  }

  function CommittedRows(keys: Keys, e: Epoch): (rows: seq<Row>)
    requires e.roster.Arr? && DistinctIds(e.roster.items)
  {
    var items := e.roster.items;
    seq(|items|, i requires 0 <= i < |items| && IdOf(items[i]).Some? => CommittedRow(keys, e, items[i]))
  }

  function LeafAt(e: Epoch, provider: Value, salt: Text): Value
    requires IdOf(provider).Some?
  {
    match FindSubmission(e.submissions, IdOf(provider).value)
    case Some(submission) => submission.leaf
    case None => MissedLeaf(e.id, IdOf(provider).value, salt)
  }

  lemma {:induction false} LeavesAre(e: Epoch, items: seq<Value>, salts: seq<Text>)
    requires |salts| == |items| && LeavesOf(e, items, salts).Some?
    ensures |LeavesOf(e, items, salts).value| == |items|
    ensures forall i :: 0 <= i < |items| ==>
      IdOf(items[i]).Some? && LeavesOf(e, items, salts).value[i] == LeafAt(e, items[i], salts[i])
  {
    hide FindSubmission, IdOf, MissedLeaf;
    if items != [] {
      LeavesAre(e, items[1..], salts[1..]);
    }
  }

  lemma {:induction false} FindSubmissionIndex(submissions: seq<(Text, Submission)>, id: Text) returns (i: nat)
    requires FindSubmission(submissions, id).Some?
    ensures i < |submissions| && submissions[i].0 == id && FindSubmission(submissions, id) == Some(submissions[i].1)
  {
    if submissions[0].0 == id {
      i := 0;
    } else {
      var j := FindSubmissionIndex(submissions[1..], id);
      i := j + 1;
    }
  }

  lemma {:induction false} FindProviderAt(items: seq<Value>, i: nat)
    requires DistinctIds(items) && i < |items|
    ensures FindProvider(items, IdOf(items[i]).value) == Some(items[i])
  {
    hide IdOf;
    if i > 0 {
      FindProviderAt(items[1..], i - 1);
    }
  }

  lemma {:induction false} RowsAre(keys: Keys, e: Epoch, items: seq<Value>, leaves: seq<Value>)
    requires |items| == |leaves| && RowsFrom(keys, e, items, leaves).Some?
    ensures |RowsFrom(keys, e, items, leaves).value| == |items|
    ensures forall i :: 0 <= i < |items| ==>
      RowOf(keys, e, items[i], leaves[i]) == Some(RowsFrom(keys, e, items, leaves).value[i])
    decreases |items|
  {
    hide RowOf;
    if items != [] {
      RowsAre(keys, e, items[1..], leaves[1..]);
    }
  }

  lemma {:induction false} RowsCompose(keys: Keys, e: Epoch, items: seq<Value>, leaves: seq<Value>, rows: seq<Row>)
    requires |items| == |leaves| == |rows|
    requires forall i :: 0 <= i < |items| ==> RowOf(keys, e, items[i], leaves[i]) == Some(rows[i])
    ensures RowsFrom(keys, e, items, leaves) == Some(rows)
    decreases |items|
  {
    hide RowOf;
    if items != [] {
      RowsCompose(keys, e, items[1..], leaves[1..], rows[1..]);
      assert rows == [rows[0]] + rows[1..];
    }
  }

  /** An accepted submission binds the provider it is filed under. */
  lemma AcceptedBinds(keys: Keys, e: Epoch, i: nat)
    requires Honest(keys, e) && i < |e.roster.items|
    requires FindSubmission(e.submissions, IdOf(e.roster.items[i]).value).Some?
    ensures var submission := FindSubmission(e.submissions, IdOf(e.roster.items[i]).value).value;
      && SubmissionBinds(keys, e, e.roster.items[i], IdOf(e.roster.items[i]).value, submission)
      && submission.leaf == LeafFor(keys, e, IdOf(e.roster.items[i]).value, submission)
  {
    hide SubmissionBinds, LeafFor, FindSubmission, FindProvider, HashText, WellFormed, IdOf;
    var id := IdOf(e.roster.items[i]).value;
    var k := FindSubmissionIndex(e.submissions, id);
    FindProviderAt(e.roster.items, i);
    assert Accepted(keys, e, e.submissions[k].0, e.submissions[k].1);
  }

  /** The leaf of a frozen epoch, as what it says. */
  lemma FrozenLeaf(keys: Keys, e: Epoch, i: nat, salt: Text)
    requires Honest(keys, e) && i < |e.roster.items|
    ensures var provider := e.roster.items[i]; var id := IdOf(provider).value; var leaf := LeafAt(e, provider, salt);
      match FindSubmission(e.submissions, id)
      case None => leaf == MissedLeaf(e.id, id, salt)
      case Some(submission) =>
        && Opened(keys, submission.envelope).Some? && HashText(Opened(keys, submission.envelope).value).Some?
        && leaf == SubmittedLeaf(e.id, id, HashText(Opened(keys, submission.envelope).value).value)
        && VectorOf(Opened(keys, submission.envelope).value).Some?
  {
    hide FindSubmission, FindProvider, HashText, WellFormed, IdOf, VectorOf, Signed, HasFields, HasVersion, HasPolicy,
      CanonicalJson, SubmittedLeaf, MissedLeaf, Accepted, LeafText, TextIs;
    if FindSubmission(e.submissions, IdOf(e.roster.items[i]).value).Some? {
      AcceptedBinds(keys, e, i);
    }
  }

  /** Reading a row back from the frozen epoch gives the committed row. */
  lemma RowReadsBack(keys: Keys, e: Epoch, f: Epoch, i: nat, salt: Text)
    requires Honest(keys, e) && i < |e.roster.items| && IsHex32(salt)
    requires f.id == e.id && f.policyHash == e.policyHash && f.submissions == e.submissions
    ensures RowOf(keys, f, e.roster.items[i], LeafAt(e, e.roster.items[i], salt))
      == Some(CommittedRow(keys, e, e.roster.items[i]))
  {
    hide FindSubmission, FindProvider, HashText, WellFormed, IdOf, VectorOf, CanonicalJson, SubmittedLeaf, MissedLeaf,
      LeafText, TextIs, Lookup, IsHex32, SubmissionBinds, Accepted, Opened;
    var provider := e.roster.items[i];
    var id := IdOf(provider).value;
    FrozenLeaf(keys, e, i, salt);
    match FindSubmission(e.submissions, id)
    case None =>
      MissedLeafFacts(e.id, id, salt);
      MissedSalt(LeafAt(e, provider, salt), salt);
    case Some(submission) =>
      AcceptedBinds(keys, e, i);
      SubmittedLeafFacts(e.id, id, HashText(Opened(keys, submission.envelope).value).value);
      SameBinding(keys, e, f, provider, id, submission);
  }

  lemma MissedSalt(leaf: Value, salt: Text)
    requires TextIs(leaf, SALT, salt) && IsHex32(salt)
    ensures HasHex32(leaf, SALT)
  {
  }

  lemma SameBinding(keys: Keys, e: Epoch, f: Epoch, provider: Value, id: Text, submission: Submission)
    requires SubmissionBinds(keys, e, provider, id, submission)
    requires f.id == e.id && f.policyHash == e.policyHash
    ensures SubmissionBinds(keys, f, provider, id, submission)
    ensures LeafFor(keys, f, id, submission) == LeafFor(keys, e, id, submission)
  {
    hide HashText, WellAddressed, Signed, CanonicalJson, SubmittedLeaf, LeafHash;
  }

  /** An untouched frozen epoch is never rejected, and reads back exactly what was accepted. */
  lemma FrozenReadsBack(keys: Keys, e: Epoch, salts: seq<Text>, sealedAt: Text, previous: Value)
    requires Honest(keys, e) && |salts| == |e.roster.items| && WellFormed(previous)
    requires forall i :: 0 <= i < |salts| ==> IsHex32(salts[i])
    requires Freeze(e, salts, sealedAt, previous).Some?
    ensures PayloadProviders(keys, Freeze(e, salts, sealedAt, previous).value) == Some(CommittedRows(keys, e))
  {
    hide RowOf, RowsFrom, TreeOf, HashText, WellFormed, IdOf, TextIs, ManifestOf, CommittedRow, LeafAt, LeavesOf,
      IsHex32, Committed, Accepted;
    var f := Freeze(e, salts, sealedAt, previous).value;
    LeavesAre(e, e.roster.items, salts);
    FrozenIsCommitted(keys, e, salts, sealedAt, previous);
    forall i | 0 <= i < |e.roster.items|
      ensures RowOf(keys, f, e.roster.items[i], f.leaves[i]) == Some(CommittedRows(keys, e)[i])
    {
      RowReadsBack(keys, e, f, i, salts[i]);
    }
    RowsCompose(keys, f, e.roster.items, f.leaves, CommittedRows(keys, e));
  }

  lemma FrozenIsCommitted(keys: Keys, e: Epoch, salts: seq<Text>, sealedAt: Text, previous: Value)
    requires Honest(keys, e) && |salts| == |e.roster.items| && WellFormed(previous)
    requires Freeze(e, salts, sealedAt, previous).Some?
    ensures Committed(Freeze(e, salts, sealedAt, previous).value)
  {
    hide TreeOf, HashText, WellFormed, IdOf, TextIs, ManifestOf, LeavesOf, SubmissionBinds, LeafFor, DistinctIds,
      FindProvider, Name;
    var f := Freeze(e, salts, sealedAt, previous).value;
    LeavesAre(e, e.roster.items, salts);
    ManifestFacts(e, HashText(e.roster).value, HashText(e.weightsBps).value, f.root.value, sealedAt, previous);
    forall i | 0 <= i < |f.submissions| ensures FindProvider(e.roster.items, f.submissions[i].0).Some? {
      assert Accepted(keys, e, e.submissions[i].0, e.submissions[i].1);
    }
  }

  /**
   What a freeze leaves: the leaves of the roster, in order, the tree and the proofs over them, a manifest that names the
   epoch, its hashes, its times and its predecessor, and the hash of that manifest; everything else is as it was.
   */
  lemma FrozenSays(keys: Keys, e: Epoch, salts: seq<Text>, sealedAt: Text, previous: Value)
    requires Honest(keys, e) && |salts| == |e.roster.items| && WellFormed(previous)
    requires Freeze(e, salts, sealedAt, previous).Some?
    ensures var f := Freeze(e, salts, sealedAt, previous).value;
      && f == e.(leaves := f.leaves, proofs := f.proofs, root := f.root, manifest := f.manifest,
                 manifestHash := f.manifestHash)
      && LeavesOf(e, e.roster.items, salts) == Some(f.leaves)
      && TreeOf(f.leaves).Ok? && f.proofs == TreeOf(f.leaves).value.proofs
      && f.root == Some(Name(TreeOf(f.leaves).value.root))
      && HashText(e.roster).Some? && HashText(e.weightsBps).Some?
      && Says(f.manifest, e, HashText(e.roster).value, HashText(e.weightsBps).value, f.root.value, sealedAt, previous)
      && f.manifestHash.Some? && f.manifestHash == HashText(f.manifest)
  {
    hide TreeOf, HashText, WellFormed, IdOf, Says, ManifestOf, LeavesOf, Name;
    var f := Freeze(e, salts, sealedAt, previous).value;
    ManifestFacts(e, HashText(e.roster).value, HashText(e.weightsBps).value, f.root.value, sealedAt, previous);
  }

  // ---------------------------------------------------------------------------------------------
  // Nothing that keeps the manifest hash reads back differently

  /** Stored documents are JSON: every object has each key once. */
  ghost predicate JsonEpoch(e: Epoch) {
    WellFormed(e.manifest) && WellFormed(e.roster) && forall i :: 0 <= i < |e.leaves| ==> WellFormed(e.leaves[i])
  }

  /** What equal manifest hashes force: identity, root and roster. */
  lemma SameManifest(f: Epoch, g: Epoch)
    requires Committed(f) && Committed(g) && JsonEpoch(f) && JsonEpoch(g) && f.manifestHash == g.manifestHash
    ensures f.id == g.id && f.root == g.root && Same(f.roster, g.roster)
  {
    hide WellFormed, Same, HashText, TreeOf, TextIs, DistinctIds, FindProvider, Name;
    TextIsOfDocument(f.manifest, EPOCH_ID, f.id);
    TextIsOfDocument(g.manifest, EPOCH_ID, g.id);
    HashTextBinds(f.manifest, g.manifest);
    SameText(f.manifest, g.manifest, EPOCH_ID, f.id);
    SameText(f.manifest, g.manifest, SUBMISSION_ROOT, f.root.value);
    SameText(f.manifest, g.manifest, ROSTER_HASH, HashText(f.roster).value);
    OneText(g.manifest, EPOCH_ID, f.id, g.id);
    OneText(g.manifest, SUBMISSION_ROOT, f.root.value, g.root.value);
    OneText(g.manifest, ROSTER_HASH, HashText(f.roster).value, HashText(g.roster).value);
    HashTextBinds(f.roster, g.roster);
  }

  lemma TextIsOfDocument(v: Value, key: Text, s: Text)
    requires TextIs(v, key, s)
    ensures v.Obj?
  {
  }

  lemma VectorIsOfDocument(v: Value)
    requires VectorOf(v).Some?
    ensures v.Obj?
  {
  }

  lemma OneText(v: Value, key: Text, s: Text, t: Text)
    requires TextIs(v, key, s) && TextIs(v, key, t)
    ensures s == t
  {
    hide Lookup;
  }

  /** Same roster length, same root: the leaves are the same, and so are the ids. */
  lemma SameLeavesAndIds(f: Epoch, g: Epoch, i: nat)
    requires Committed(f) && Committed(g) && JsonEpoch(f) && JsonEpoch(g)
    requires f.root == g.root && Same(f.roster, g.roster)
    requires i < |f.roster.items|
    ensures |g.roster.items| == |f.roster.items|
    ensures Same(f.leaves[i], g.leaves[i])
    ensures IdOf(f.roster.items[i]) == IdOf(g.roster.items[i])
  {
    hide WellFormed, HashText, TreeOf, TextIs, FindProvider, Name, IdOf, Same;
    SameItems(f.roster, g.roster, i);
    NameBinds(TreeOf(f.leaves).value.root, TreeOf(g.leaves).value.root);
    SameRootSameLeaves(f.leaves, g.leaves, i);
    SameId(f.roster.items[i], g.roster.items[i]);
  }

  lemma SameItems(v: Value, w: Value, i: nat)
    requires v.Arr? && Same(v, w) && WellFormed(v) && WellFormed(w) && i < |v.items|
    ensures w.Arr? && |w.items| == |v.items| && Same(v.items[i], w.items[i])
    ensures WellFormed(v.items[i]) && WellFormed(w.items[i])
  {
    hide WellFormedItems;
    WellFormedAt(v.items, i);
    WellFormedAt(w.items, i);
  }

  lemma SameId(v: Value, w: Value)
    requires Same(v, w) && WellFormed(v) && WellFormed(w) && IdOf(v).Some?
    ensures IdOf(v) == IdOf(w)
  {
    hide Same, WellFormed, Lookup;
    SameText(v, w, ID, IdOf(v).value);
  }

  /** A row that passes every check against a leaf of the frozen tree is the committed row. */
  lemma RowCannotDrift(keys: Keys, e: Epoch, other: Keys, g: Epoch, i: nat, salt: Text, provider: Value, leaf: Value)
    requires Honest(keys, e) && i < |e.roster.items| && JsonKeys(keys) && JsonKeys(other)
    requires g.id == e.id && IdOf(provider).Some? && IdOf(provider) == IdOf(e.roster.items[i])
    requires WellFormed(leaf) && Same(LeafAt(e, e.roster.items[i], salt), leaf)
    ensures RowOf(other, g, provider, leaf).Some? ==>
      RowOf(other, g, provider, leaf).value == CommittedRow(keys, e, e.roster.items[i])
  {
    hide FindSubmission, FindProvider, HashText, WellFormed, IdOf, VectorOf, CanonicalJson, SubmittedLeaf, MissedLeaf,
      LeafText, TextIs, Lookup, IsHex32, Same, HasHex32, Accepted, Honest, SubmissionBinds, LeafFor, JsonKeys, Opened;
    var id := IdOf(provider).value;
    FrozenLeaf(keys, e, i, salt);
    if RowOf(other, g, provider, leaf).Some? {
      match FindSubmission(e.submissions, id)
      case None =>
        MissedLeafFacts(e.id, id, salt);
        MissedStaysMissed(other, g, id, salt, provider, leaf);
      case Some(submission) =>
        var payload := Opened(keys, submission.envelope).value;
        OpenedWellFormed(keys, submission.envelope);
        SubmittedStays(other, g, id, payload, provider, leaf);
    }
  }

  /** A payload comes out of a JSON envelope, so it is JSON itself. */
  lemma OpenedWellFormed(keys: Keys, envelope: Text)
    requires JsonKeys(keys) && Opened(keys, envelope).Some?
    ensures WellFormed(Opened(keys, envelope).value)
  {
    hide Lookup, WellFormed;
    WellFormedLookup(keys.decrypt(envelope).value, PAYLOAD);
  }

  /** Where the leaf says missed, no submission can pass. */
  lemma MissedStaysMissed(other: Keys, g: Epoch, id: Text, salt: Text, provider: Value, leaf: Value)
    requires IdOf(provider) == Some(id) && WellFormed(leaf) && Same(MissedLeaf(g.id, id, salt), leaf)
    requires RowOf(other, g, provider, leaf).Some?
    ensures RowOf(other, g, provider, leaf) == Some(Row(id, None))
  {
    hide FindSubmission, HashText, WellFormed, IdOf, VectorOf, CanonicalJson, SubmittedLeaf, MissedLeaf,
      LeafText, TextIs, Lookup, IsHex32, Same, HasHex32, SubmissionBinds, LeafFor, Opened;
    MissedLeafFacts(g.id, id, salt);
    SameText(MissedLeaf(g.id, id, salt), leaf, STATUS, MISSED);
    if FindSubmission(g.submissions, id).Some? {
      var submission := FindSubmission(g.submissions, id).value;
      AgreesWithLeaf(other, g, provider, id, submission, leaf);
      LiteralsDiffer();
      OneText(leaf, STATUS, SUBMITTED, MISSED);
    }
  }

  /** A leaf that equals the one a stored submission must have says so. */
  lemma AgreesWithLeaf(other: Keys, g: Epoch, provider: Value, id: Text, submission: Submission, leaf: Value)
    requires WellFormed(leaf)
    requires SubmissionBinds(other, g, provider, id, submission)
    requires CanonicalJson(leaf) == CanonicalJson(LeafFor(other, g, id, submission))
    ensures TextIs(leaf, STATUS, SUBMITTED)
    ensures Opened(other, submission.envelope).Some? && HashText(Opened(other, submission.envelope).value).Some?
    ensures TextIs(leaf, PAYLOAD_HASH, HashText(Opened(other, submission.envelope).value).value)
    ensures VectorOf(Opened(other, submission.envelope).value).Some?
  {
    hide HashText, WellFormed, VectorOf, CanonicalJson, SubmittedLeaf, LeafText, TextIs, Lookup, Same, Opened, Signed,
      HasFields, HasVersion, HasPolicy;
    var h := HashText(Opened(other, submission.envelope).value).value;
    var expected := SubmittedLeaf(g.id, id, h);
    SubmittedLeafFacts(g.id, id, h);
    PrintsAlikeIff(expected, leaf);
    SameText(expected, leaf, STATUS, SUBMITTED);
    SameText(expected, leaf, PAYLOAD_HASH, h);
  }

  /** Where the leaf names a payload, only that payload can pass. */
  lemma SubmittedStays(other: Keys, g: Epoch, id: Text, payload: Value, provider: Value, leaf: Value)
    requires JsonKeys(other) && WellFormed(payload) && HashText(payload).Some? && VectorOf(payload).Some?
    requires IdOf(provider) == Some(id) && WellFormed(leaf)
    requires Same(SubmittedLeaf(g.id, id, HashText(payload).value), leaf)
    requires RowOf(other, g, provider, leaf).Some?
    ensures RowOf(other, g, provider, leaf) == Some(Row(id, VectorOf(payload)))
  {
    hide FindSubmission, HashText, WellFormed, IdOf, VectorOf, CanonicalJson, SubmittedLeaf, MissedLeaf,
      LeafText, TextIs, Lookup, IsHex32, Same, HasHex32, SubmissionBinds, LeafFor, Opened, JsonKeys;
    var h := HashText(payload).value;
    SubmittedLeafFacts(g.id, id, h);
    SameText(SubmittedLeaf(g.id, id, h), leaf, STATUS, SUBMITTED);
    SameText(SubmittedLeaf(g.id, id, h), leaf, PAYLOAD_HASH, h);
    if FindSubmission(g.submissions, id).None? {
      LiteralsDiffer();
      OneText(leaf, STATUS, SUBMITTED, MISSED);
    } else {
      var submission := FindSubmission(g.submissions, id).value;
      AgreesWithLeaf(other, g, provider, id, submission, leaf);
      var stored := Opened(other, submission.envelope).value;
      OneText(leaf, PAYLOAD_HASH, h, HashText(stored).value);
      OpenedWellFormed(other, submission.envelope);
      VectorIsOfDocument(payload);
      VectorIsOfDocument(stored);
      HashTextBinds(payload, stored);
      SameVector(payload, stored);
    }
  }

  /** The frozen epoch itself is JSON. */
  lemma FrozenIsJson(keys: Keys, e: Epoch, salts: seq<Text>, sealedAt: Text, previous: Value)
    requires Honest(keys, e) && |salts| == |e.roster.items| && WellFormed(previous)
    requires Freeze(e, salts, sealedAt, previous).Some?
    ensures JsonEpoch(Freeze(e, salts, sealedAt, previous).value)
  {
    hide TreeOf, HashText, WellFormed, IdOf, TextIs, ManifestOf, LeavesOf, DistinctIds, FindSubmission, Accepted,
      Opened, VectorOf, SubmittedLeaf, MissedLeaf;
    var f := Freeze(e, salts, sealedAt, previous).value;
    LeavesAre(e, e.roster.items, salts);
    ManifestFacts(e, HashText(e.roster).value, HashText(e.weightsBps).value, f.root.value, sealedAt, previous);
    forall i | 0 <= i < |f.leaves| ensures WellFormed(f.leaves[i]) {
      FrozenLeaf(keys, e, i, salts[i]);
      LeafIsJson(keys, e, i, salts[i]);
    }
  }

  lemma LeafIsJson(keys: Keys, e: Epoch, i: nat, salt: Text)
    requires Honest(keys, e) && i < |e.roster.items|
    ensures WellFormed(LeafAt(e, e.roster.items[i], salt))
  {
    hide HashText, WellFormed, IdOf, FindSubmission, Accepted, Opened, VectorOf, SubmittedLeaf, MissedLeaf;
    var id := IdOf(e.roster.items[i]).value;
    FrozenLeaf(keys, e, i, salt);
    match FindSubmission(e.submissions, id)
    case None => MissedLeafFacts(e.id, id, salt);
    case Some(submission) => SubmittedLeafFacts(e.id, id, HashText(Opened(keys, submission.envelope).value).value);
  }

  /**
   Frozen inputs cannot drift: whatever the stored epoch holds later, and whatever its envelopes open to, as long as
   its manifest hash is the frozen one the operation is rejected or gives exactly what was committed.
   */
  lemma FrozenCannotDrift(
      keys: Keys, e: Epoch, salts: seq<Text>, sealedAt: Text, previous: Value, other: Keys, g: Epoch)
    requires Honest(keys, e) && |salts| == |e.roster.items| && WellFormed(previous)
    requires Freeze(e, salts, sealedAt, previous).Some?
    requires JsonKeys(keys) && JsonKeys(other) && JsonEpoch(g)
    requires g.manifestHash == Freeze(e, salts, sealedAt, previous).value.manifestHash
    ensures PayloadProviders(other, g).None? || PayloadProviders(other, g) == Some(CommittedRows(keys, e))
  {
    hide RowOf, RowsFrom, TreeOf, HashText, WellFormed, IdOf, TextIs, ManifestOf, LeafAt, LeavesOf, Same,
      Committed, Accepted, JsonKeys, JsonEpoch, CommittedRow;
    var f := Freeze(e, salts, sealedAt, previous).value;
    if PayloadProviders(other, g).Some? {
      FrozenIsCommitted(keys, e, salts, sealedAt, previous);
      FrozenIsJson(keys, e, salts, sealedAt, previous);
      LeavesAre(e, e.roster.items, salts);
      SameManifest(f, g);
      DriftRows(keys, e, salts, other, f, g);
    }
  }

  lemma DriftRows(keys: Keys, e: Epoch, salts: seq<Text>, other: Keys, f: Epoch, g: Epoch)
    requires Honest(keys, e) && |salts| == |e.roster.items| && JsonKeys(keys) && JsonKeys(other)
    requires f.roster == e.roster && f.id == e.id && |f.leaves| == |e.roster.items|
    requires forall i :: 0 <= i < |e.roster.items| ==>
      IdOf(e.roster.items[i]).Some? && f.leaves[i] == LeafAt(e, e.roster.items[i], salts[i])
    requires Committed(f) && Committed(g) && JsonEpoch(f) && JsonEpoch(g)
    requires f.id == g.id && f.root == g.root && Same(f.roster, g.roster)
    requires PayloadProviders(other, g).Some?
    ensures PayloadProviders(other, g) == Some(CommittedRows(keys, e))
  {
    hide RowOf, RowsFrom, TreeOf, HashText, WellFormed, IdOf, TextIs, LeafAt, Same, Accepted, JsonKeys, CommittedRow,
      Honest, DistinctIds, FindProvider, Name;
    var rows := PayloadProviders(other, g).value;
    RowsAre(other, g, g.roster.items, g.leaves);
    SameLengths(f, g);
    HonestRoster(keys, e);
    forall i | 0 <= i < |e.roster.items| ensures rows[i] == CommittedRow(keys, e, e.roster.items[i]) {
      SameLeavesAndIds(f, g, i);
      RowCannotDrift(keys, e, other, g, i, salts[i], g.roster.items[i], g.leaves[i]);
    }
    assert rows == CommittedRows(keys, e);
  }

  lemma HonestRoster(keys: Keys, e: Epoch)
    requires Honest(keys, e)
    ensures e.roster.Arr? && DistinctIds(e.roster.items)
  {
    hide DistinctIds;
  }

  lemma SameLengths(f: Epoch, g: Epoch)
    requires f.roster.Arr? && Same(f.roster, g.roster)
    ensures g.roster.Arr? && |g.roster.items| == |f.roster.items|
  {
  }
}
