/**
 What an accepted submission is, and when one is accepted: the payload field by field, and what is stored for it; and
 exactly which stored epochs read back, with which rows.
 */
module SubmissionLaws {
  import opened Prelude
  import opened Canonical
  import opened CanonicalLaws
  import opened Merkle
  import opened Commitment
  import opened CommitmentLaws

  // ---------------------------------------------------------------------------------------------
  // Exactly the fields of the protocol

  /** The fields of protocol version 1, in the order of their code units. */
  const FIELDS: seq<Text> := [
    T("epochId"), T("nonce"), T("policyHash"), T("providerId"), T("universe"), T("vectorBps"), T("version")]

  ghost predicate AllFound(fields: seq<(Text, Value)>, names: seq<Text>) {
    forall k :: 0 <= k < |names| ==> Find(fields, names[k]).Some?
  }

  ghost predicate Different(names: seq<Text>) {
    forall i, j :: 0 <= i < j < |names| ==> names[i] != names[j]
  }

  /** As many fields as names, and each name is there: so each once, and nothing else. */
  ghost predicate HasExactly(fields: seq<(Text, Value)>, names: seq<Text>) {
    |fields| == |names| && AllFound(fields, names)
  }

  function Weight(names: seq<Text>): nat {
    if names == [] then 0 else |names[0]| + 1 + Weight(names[1..])
  }

  function FieldWeight(fields: seq<(Text, Value)>): nat {
    if fields == [] then 0 else |fields[0].0| + 1 + FieldWeight(fields[1..])
  }

  lemma {:induction false} JoinWeight(parts: seq<Text>)
    requires parts != []
    ensures |Join(parts)| + 1 == Weight(parts)
  {
    if |parts| == 1 {
      assert parts[1..] == [];
    } else {
      JoinWeight(parts[1..]);
    }
  }

  lemma {:induction false} InsertWeight(key: Text, s: seq<(Text, ())>)
    ensures Weight(KeysOf(Insert(key, (), s))) == |key| + 1 + Weight(KeysOf(s))
    ensures |KeysOf(Insert(key, (), s))| == |KeysOf(s)| + 1
  {
    hide Less;
    if s != [] && !Less(key, s[0].0) {
      InsertWeight(key, s[1..]);
      assert Insert(key, (), s)[1..] == Insert(key, (), s[1..]);
      assert KeysOf(Insert(key, (), s))[1..] == KeysOf(Insert(key, (), s[1..]));
      assert KeysOf(s)[1..] == KeysOf(s[1..]);
    } else {
      assert ([(key, ())] + s)[1..] == s;
      assert KeysOf([(key, ())] + s)[1..] == KeysOf(s);
    }
  }

  lemma {:induction false} SortedWeight(fields: seq<(Text, Value)>)
    ensures Weight(SortedKeys(fields)) == FieldWeight(fields) && |SortedKeys(fields)| == |fields|
  {
    if fields != [] {
      SortedWeight(fields[1..]);
      InsertWeight(fields[0].0, KeysSorted(fields[1..]));
    }
  }

  lemma {:induction false} FindAt(fields: seq<(Text, Value)>, name: Text)
    ensures Find(fields, name).Some? <==> exists i :: 0 <= i < |fields| && fields[i].0 == name
  {
    if fields != [] {
      FindAt(fields[1..], name);
      assert forall i :: 0 < i < |fields| ==> fields[i] == fields[1..][i - 1];
      assert forall i :: 0 <= i < |fields[1..]| ==> fields[i + 1] == fields[1..][i];
    }
  }

  lemma {:induction false} WeightWithout(fields: seq<(Text, Value)>, i: nat)
    requires i < |fields|
    ensures FieldWeight(fields) == |fields[i].0| + 1 + FieldWeight(fields[..i] + fields[i + 1..])
    decreases i
  {
    if i == 0 {
      assert fields[..0] + fields[1..] == fields[1..];
    } else {
      WeightWithout(fields[1..], i - 1);
      assert (fields[..i] + fields[i + 1..])[1..] == fields[1..][..i - 1] + fields[1..][i..];
    }
  }

  lemma FoundWithout(fields: seq<(Text, Value)>, i: nat, name: Text)
    requires i < |fields| && Find(fields, name).Some?
    requires fields[i].0 != name || exists j :: 0 <= j < |fields| && j != i && fields[j].0 == name
    ensures Find(fields[..i] + fields[i + 1..], name).Some?
  {
    hide Find;
    FindAt(fields, name);
    var j :| 0 <= j < |fields| && j != i && fields[j].0 == name;
    var rest := fields[..i] + fields[i + 1..];
    FindAt(rest, name);
    assert rest[if j < i then j else j - 1] == fields[j];
  }

  /** Different names that are all there take their room among the fields. */
  lemma {:induction false} NamesTakeRoom(fields: seq<(Text, Value)>, names: seq<Text>)
    requires Different(names) && AllFound(fields, names)
    ensures |fields| >= |names| && FieldWeight(fields) >= Weight(names) + |fields| - |names|
    decreases |names|
  {
    hide Find;
    if names == [] {
      FieldsWeigh(fields);
    } else {
      FindAt(fields, names[0]);
      var i :| 0 <= i < |fields| && fields[i].0 == names[0];
      var rest := fields[..i] + fields[i + 1..];
      forall k | 0 <= k < |names[1..]| ensures Find(rest, names[1..][k]).Some? {
        FoundWithout(fields, i, names[k + 1]);
      }
      WeightWithout(fields, i);
      NamesTakeRoom(rest, names[1..]);
    }
  }

  lemma {:induction false} FieldsWeigh(fields: seq<(Text, Value)>)
    ensures FieldWeight(fields) >= |fields|
  {
    if fields != [] {
      FieldsWeigh(fields[1..]);
    }
  }

  lemma OneLess(fields: seq<(Text, Value)>, names: seq<Text>, i: nat)
    requires HasExactly(fields, names) && Different(names) && i < |fields|
    ensures !AllFound(fields[..i] + fields[i + 1..], names)
  {
    hide Find;
    if AllFound(fields[..i] + fields[i + 1..], names) {
      NamesTakeRoom(fields[..i] + fields[i + 1..], names);
    }
  }

  lemma ExactlyThese(fields: seq<(Text, Value)>, names: seq<Text>)
    requires HasExactly(fields, names) && Different(names)
    ensures DistinctKeys(fields)
    ensures forall i :: 0 <= i < |fields| ==> fields[i].0 in names
  {
    hide Find;
    forall i: nat, j: nat | i < j < |fields| ensures fields[i].0 != fields[j].0 {
      if fields[i].0 == fields[j].0 {
        forall k | 0 <= k < |names| ensures Find(fields[..j] + fields[j + 1..], names[k]).Some? {
          FindAt(fields, names[k]);
          FoundWithout(fields, j, names[k]);
        }
        OneLess(fields, names, j);
      }
    }
    forall i: nat | i < |fields| ensures fields[i].0 in names {
      if fields[i].0 !in names {
        forall k | 0 <= k < |names| ensures Find(fields[..i] + fields[i + 1..], names[k]).Some? {
          FoundWithout(fields, i, names[k]);
        }
        OneLess(fields, names, i);
      }
    }
  }

  function Marked(names: seq<Text>): (marked: seq<(Text, ())>)
    ensures |marked| == |names| && forall i :: 0 <= i < |names| ==> marked[i] == (names[i], ())
  {
    seq(|names|, i requires 0 <= i < |names| => (names[i], ()))
  }

  lemma {:induction false} MarkedKeys(names: seq<Text>)
    ensures KeysOf(Marked(names)) == names
  {
    if names != [] {
      MarkedKeys(names[1..]);
      assert Marked(names)[1..] == Marked(names[1..]);
    }
  }

  lemma {:induction false} KeysSortedFacts(fields: seq<(Text, Value)>)
    requires DistinctKeys(fields)
    ensures Ordered(KeysSorted(fields))
    ensures forall e :: e in KeysSorted(fields) <==> exists i :: 0 <= i < |fields| && fields[i].0 == e.0
  {
    hide Insert, Less, Ordered;
    if fields == [] {
      NothingIsOrdered();
    } else {
      var s, tail := KeysSorted(fields[1..]), fields[1..];
      assert forall i :: 0 < i < |fields| ==> fields[i] == tail[i - 1];
      assert forall i :: 0 <= i < |tail| ==> fields[i + 1] == tail[i];
      KeysSortedFacts(tail);
      forall i | 0 <= i < |s| ensures s[i].0 != fields[0].0 {
        assert s[i] in s;
      }
      InsertFacts(fields[0].0, (), s);
      forall e: (Text, ()) ensures e == (fields[0].0, ()) <==> e.0 == fields[0].0 {
        assert e.1 == ();
      }
    }
  }

  lemma NothingIsOrdered()
    ensures Ordered<()>([])
  {
  }

  lemma FieldsDiffer()
    ensures Different(FIELDS)
  {
    assert FIELDS[0][0] == 101 && FIELDS[1][0] == 110 && FIELDS[4][0] == 117;
    assert FIELDS[2][0] == 112 && FIELDS[3][0] == 112 && FIELDS[2][1] == 111 && FIELDS[3][1] == 114;
    assert FIELDS[5][0] == 118 && FIELDS[6][0] == 118 && FIELDS[5][2] == 99 && FIELDS[6][2] == 114;
  }

  lemma FieldsOrdered()
    ensures Ordered(Marked(FIELDS))
  {
    FieldsDiffer();
    forall i, j | 0 <= i < j < 7 ensures Less(FIELDS[i], FIELDS[j]) {
      FieldBelow(i, j);
    }
  }

  lemma FieldBelow(i: nat, j: nat)
    requires i < j < 7
    ensures Less(FIELDS[i], FIELDS[j])
  {
    var a, b := FIELDS[i], FIELDS[j];
    assert FIELDS[0][0] == 101 && FIELDS[1][0] == 110 && FIELDS[4][0] == 117;
    assert FIELDS[2][0] == 112 && FIELDS[3][0] == 112 && FIELDS[2][1] == 111 && FIELDS[3][1] == 114;
    assert FIELDS[5][0] == 118 && FIELDS[6][0] == 118 && FIELDS[5][1] == 101 && FIELDS[6][1] == 101;
    assert FIELDS[5][2] == 99 && FIELDS[6][2] == 114;
    if a[0] == b[0] {
      LessByThird(a, b);
    }
  }

  lemma LessByThird(a: Text, b: Text)
    requires |a| > 2 && |b| > 2 && a[0] == b[0] && (a[1] < b[1] || (a[1] == b[1] && a[2] < b[2]))
    ensures Less(a, b)
  {
    assert a[1..][0] == a[1] && b[1..][0] == b[1];
    assert a[1..][1..][0] == a[2] && b[1..][1..][0] == b[2];
    assert Less(a[1..], b[1..]);
  }

  /** The joined list of sorted keys is the expected text exactly when the object has exactly the seven fields. */
  lemma FieldsIff(fields: seq<(Text, Value)>)
    requires AllFound(fields, FIELDS)
    ensures KeyList(Obj(fields)) == PAYLOAD_FIELDS <==> |fields| == 7
  {
    hide Find, T, Join, Ordered, KeysSorted, Different;
    FieldsDiffer();
    assert PAYLOAD_FIELDS == Join(FIELDS);
    SortedWeight(fields);
    NamesTakeRoom(fields, FIELDS);
    if KeyList(Obj(fields)) == PAYLOAD_FIELDS {
      JoinWeight(FIELDS);
      JoinWeight(SortedKeys(fields));
    }
    if |fields| == 7 {
      ExactlyThese(fields, FIELDS);
      KeysSortedFacts(fields);
      FieldsOrdered();
      forall e: (Text, ()) ensures e in KeysSorted(fields) <==> e in Marked(FIELDS) {
        SameKeys(fields, e);
      }
      OrderedIsUnique(KeysSorted(fields), Marked(FIELDS));
      MarkedKeys(FIELDS);
    }
  }

  lemma SameKeys(fields: seq<(Text, Value)>, e: (Text, ()))
    requires AllFound(fields, FIELDS) && forall i :: 0 <= i < |fields| ==> fields[i].0 in FIELDS
    ensures (exists i :: 0 <= i < |fields| && fields[i].0 == e.0) <==> e in Marked(FIELDS)
  {
    hide Find, T;
    assert e.1 == ();
    FindAt(fields, e.0);
    if e in Marked(FIELDS) {
      var k :| 0 <= k < |Marked(FIELDS)| && Marked(FIELDS)[k] == e;
      assert Find(fields, FIELDS[k]).Some?;
    }
    if i :| 0 <= i < |fields| && fields[i].0 == e.0 {
      var k :| 0 <= k < |FIELDS| && FIELDS[k] == e.0;
      assert Marked(FIELDS)[k] == e;
    }
  }

  // ---------------------------------------------------------------------------------------------
  // Payloads

  /** 64 characters, each of 0 to 9 or a to f. */
  ghost predicate IsNonce(v: Value) {
    v.Str? && |v.s| == 64 && forall i :: 0 <= i < 64 ==> 48 <= v.s[i] <= 57 || 97 <= v.s[i] <= 102
  }

  /** Four integers from -10000 to 10000. */
  ghost predicate IsVector(v: Value, vector: seq<int>) {
    && |vector| == 4 && (forall i :: 0 <= i < 4 ==> -10000 <= vector[i] <= 10000)
    && v.Arr? && |v.items| == 4 && forall i :: 0 <= i < 4 ==> v.items[i].Num? && v.items[i].n == vector[i]
  }

  ghost predicate FieldIs(v: Value, name: string, expected: Value) {
    Lookup(v, T(name)) == Some(expected)
  }

  /** A whole payload of version 1, by this provider for this epoch under this policy, with this vector. */
  ghost predicate IsPayload(v: Value, epochId: Text, policyHash: Text, providerId: Text, vector: seq<int>) {
    && v.Obj? && HasExactly(v.fields, FIELDS)
    && FieldIs(v, "version", Num(1)) && FieldIs(v, "epochId", Str(epochId))
    && FieldIs(v, "policyHash", Str(policyHash)) && FieldIs(v, "providerId", Str(providerId))
    && Lookup(v, T("nonce")).Some? && IsNonce(Lookup(v, T("nonce")).value)
    && Lookup(v, T("vectorBps")).Some? && IsVector(Lookup(v, T("vectorBps")).value, vector)
    && Lookup(v, T("universe")).Some?
    && CanonicalJson(Lookup(v, T("universe")).value)
       == CanonicalJson(Arr([Str(T("BTC")), Str(T("ETH")), Str(T("MON")), Str(T("SOL"))]))
  }

  lemma FoundEach(v: Value)
    ensures v.Obj? && AllFound(v.fields, FIELDS) <==>
      && Lookup(v, T("epochId")).Some? && Lookup(v, T("nonce")).Some? && Lookup(v, T("policyHash")).Some?
      && Lookup(v, T("providerId")).Some? && Lookup(v, T("universe")).Some? && Lookup(v, T("vectorBps")).Some?
      && Lookup(v, T("version")).Some?
  {
    hide Find, T;
    if v.Obj? {
      assert Find(v.fields, FIELDS[0]).Some? <==> Lookup(v, T("epochId")).Some?;
      assert Find(v.fields, FIELDS[1]).Some? <==> Lookup(v, T("nonce")).Some?;
      assert Find(v.fields, FIELDS[2]).Some? <==> Lookup(v, T("policyHash")).Some?;
      assert Find(v.fields, FIELDS[3]).Some? <==> Lookup(v, T("providerId")).Some?;
      assert Find(v.fields, FIELDS[4]).Some? <==> Lookup(v, T("universe")).Some?;
      assert Find(v.fields, FIELDS[5]).Some? <==> Lookup(v, T("vectorBps")).Some?;
      assert Find(v.fields, FIELDS[6]).Some? <==> Lookup(v, T("version")).Some?;
    }
  }

  lemma VectorIs(v: Value, vector: seq<int>)
    requires Lookup(v, T("vectorBps")).Some?
    ensures VectorOf(v) == Some(vector) <==> IsVector(Lookup(v, T("vectorBps")).value, vector)
  {
    hide T, Lookup;
    var found := Lookup(v, T("vectorBps")).value;
    if IsVector(found, vector) {
      assert [found.items[0].n, found.items[1].n, found.items[2].n, found.items[3].n] == vector;
    }
  }

  /** What passes the checks of a payload is exactly a whole payload, its vector the one that counts. */
  lemma PayloadIff(v: Value, epochId: Text, policyHash: Text, providerId: Text, vector: seq<int>)
    ensures WellAddressed(v, epochId, policyHash, providerId) && VectorOf(v) == Some(vector) <==>
      IsPayload(v, epochId, policyHash, providerId, vector)
  {
    hide T, Lookup, KeyList, AllFound, CanonicalJson, VectorOf, IsVector;
    FoundEach(v);
    if v.Obj? && AllFound(v.fields, FIELDS) {
      FieldsIff(v.fields);
      VectorIs(v, vector);
    }
    VectorNeedsField(v);
  }

  lemma VectorNeedsField(v: Value)
    ensures VectorOf(v).Some? ==> Lookup(v, T("vectorBps")).Some?
  {
    hide T, Lookup;
  }

  // ---------------------------------------------------------------------------------------------
  // Submissions

  /** What an envelope offers: a payload, the provider on the roster who signed it, its vector and its hash. */
  datatype Offer = Offer(payload: Value, id: Text, provider: Value, vector: seq<int>, payloadHash: Text)

  ghost predicate IsOffer(keys: Keys, e: Epoch, envelope: Text, o: Offer) {
    && keys.decrypt(envelope).Some? && Lookup(keys.decrypt(envelope).value, T("payload")) == Some(o.payload)
    && IsPayload(o.payload, e.id, e.policyHash, o.id, o.vector)
    && e.roster.Arr? && FindProvider(e.roster.items, o.id) == Some(o.provider)
    && Signed(keys, keys.decrypt(envelope).value, o.payload, o.provider)
    && HashText(o.payload) == Some(o.payloadHash)
  }

  /** An offer can be taken in time, and once more whenever it is the same. */
  ghost predicate Takeable(e: Epoch, stillOpen: bool, o: Offer) {
    match FindSubmission(e.submissions, o.id)
    case Some(known) => known.payloadHash == o.payloadHash
    case None => stillOpen
  }

  ghost predicate IsLeaf(leaf: Value, epochId: Text, providerId: Text, payloadHash: Text) {
    && leaf.Obj? && |leaf.fields| == 5
    && FieldIs(leaf, "domain", Str(T("MM_ALPHA_SUBMISSION_V1"))) && FieldIs(leaf, "epochId", Str(epochId))
    && FieldIs(leaf, "providerId", Str(providerId)) && FieldIs(leaf, "status", Str(T("SUBMITTED")))
    && FieldIs(leaf, "payloadHash", Str(payloadHash))
  }

  /** The epoch after an offer is taken: one submission more, or none if the provider's is already there. */
  ghost predicate Taken(e: Epoch, envelope: Text, now: Text, o: Offer, after: Epoch) {
    if FindSubmission(e.submissions, o.id).Some? then after == e
    else
      exists s: Submission ::
        && after == e.(submissions := e.submissions + [(o.id, s)])
        && s.envelope == envelope && s.acceptedAt == now && s.payloadHash == o.payloadHash
        && IsLeaf(s.leaf, e.id, o.id, o.payloadHash)
        && LeafHash(s.leaf).Ok? && s.leafHash == Name(LeafHash(s.leaf).value)
  }

  lemma LeafIsPrintable(epochId: Text, providerId: Text, payloadHash: Text)
    ensures var leaf := SubmittedLeaf(epochId, providerId, payloadHash);
      IsLeaf(leaf, epochId, providerId, payloadHash) && LeafHash(leaf).Ok?
  {
    hide T, Lookup, WellFormed, Clean;
    SubmittedLeafFacts(epochId, providerId, payloadHash);
    RefusesIff(SubmittedLeaf(epochId, providerId, payloadHash));
  }

  lemma SignedIsHashed(keys: Keys, content: Value, payload: Value, provider: Value)
    requires Signed(keys, content, payload, provider)
    ensures HashText(payload).Some?
  {
    hide Name, T;
  }

  /** Every takeable offer is accepted, and stored as exactly this. */
  lemma OfferIsTaken(keys: Keys, e: Epoch, envelope: Text, stillOpen: bool, now: Text, o: Offer)
    requires IsOffer(keys, e, envelope, o)
    ensures Submit(keys, e, envelope, stillOpen, now).Ok? <==> Takeable(e, stillOpen, o)
    ensures Submit(keys, e, envelope, stillOpen, now).Ok? ==>
      Taken(e, envelope, now, o, Submit(keys, e, envelope, stillOpen, now).value)
  {
    hide T, Lookup, KeyList, CanonicalJson, VectorOf, IsPayload, FindProvider, FindSubmission, Name, Signed, HasVersion,
      HasPolicy, SubmittedLeaf, LeafHash, IsLeaf;
    PayloadIff(o.payload, e.id, e.policyHash, o.id, o.vector);
    LeafIsPrintable(e.id, o.id, o.payloadHash);
  }

  /**
   A submission is accepted exactly when its envelope opens to a whole payload of this epoch and policy, signed by a
   provider of the roster, that comes in time or repeats the one already accepted.
   */
  lemma SubmissionAcceptedIff(keys: Keys, e: Epoch, envelope: Text, stillOpen: bool, now: Text)
    ensures Submit(keys, e, envelope, stillOpen, now).Ok? <==>
      exists o :: IsOffer(keys, e, envelope, o) && Takeable(e, stillOpen, o)
  {
    hide T, Lookup, KeyList, CanonicalJson, VectorOf, IsPayload, FindProvider, FindSubmission, Name, Signed, HasVersion,
      HasFields, HasPolicy, SubmittedLeaf, LeafHash;
    if Submit(keys, e, envelope, stillOpen, now).Ok? {
      var payload := Opened(keys, envelope).value;
      var id := Lookup(payload, PROVIDER_ID).value.s;
      var provider := FindProvider(e.roster.items, id).value;
      var vector := VectorOf(payload).value;
      PayloadIff(payload, e.id, e.policyHash, id, vector);
      var o := Offer(payload, id, provider, vector, HashText(payload).value);
      assert IsOffer(keys, e, envelope, o) && Takeable(e, stillOpen, o);
    }
    if o :| IsOffer(keys, e, envelope, o) && Takeable(e, stillOpen, o) {
      OfferIsTaken(keys, e, envelope, stillOpen, now, o);
    }
  }

  // ---------------------------------------------------------------------------------------------
  // Reading a stored epoch back

  /** The manifest names the epoch and what is stored with it, and hashes to the stored hash. */
  ghost predicate IsSealed(e: Epoch) {
    var m := e.manifest;
    && e.manifestHash.Some? && HashText(m) == e.manifestHash && FieldIs(m, "domain", Str(T("MM_ALPHA_EPOCH_V1")))
    && FieldIs(m, "epochId", Str(e.id)) && FieldIs(m, "workspace", Str(e.workspace))
    && FieldIs(m, "policyHash", Str(e.policyHash)) && HashText(e.policy) == Some(e.policyHash)
    && HashText(e.roster).Some? && FieldIs(m, "rosterHash", Str(HashText(e.roster).value))
    && HashText(e.weightsBps).Some? && FieldIs(m, "weightsHash", Str(HashText(e.weightsBps).value))
    && TreeOf(e.leaves).Ok? && e.root == Some(Name(TreeOf(e.leaves).value.root))
    && FieldIs(m, "submissionRoot", Str(e.root.value))
  }

  ghost predicate OnRoster(items: seq<Value>, id: Text) {
    exists i :: 0 <= i < |items| && IdOf(items[i]) == Some(id)
  }

  /** A roster of different providers, a leaf for each of them, and submissions of nobody else. */
  ghost predicate IsManned(e: Epoch) {
    && e.roster.Arr? && |e.leaves| == |e.roster.items| && DistinctIds(e.roster.items)
    && forall k :: 0 <= k < |e.submissions| ==> OnRoster(e.roster.items, e.submissions[k].0)
  }

  ghost predicate NamesRow(leaf: Value, epochId: Text, id: Text) {
    && FieldIs(leaf, "domain", Str(T("MM_ALPHA_SUBMISSION_V1"))) && FieldIs(leaf, "epochId", Str(epochId))
    && FieldIs(leaf, "providerId", Str(id))
  }

  ghost predicate IsMiss(leaf: Value) {
    FieldIs(leaf, "status", Str(T("MISSED"))) && Lookup(leaf, T("salt")).Some? && IsNonce(Lookup(leaf, T("salt")).value)
  }

  /** A stored submission is the offer in its envelope, and leaf and hashes are the ones of that offer. */
  ghost predicate Keeps(keys: Keys, e: Epoch, leaf: Value, s: Submission, o: Offer) {
    var expected := SubmittedLeaf(e.id, o.id, o.payloadHash);
    && IsOffer(keys, e, s.envelope, o) && s.payloadHash == o.payloadHash
    && CanonicalJson(leaf) == CanonicalJson(expected) == CanonicalJson(s.leaf)
    && LeafHash(expected).Ok? && s.leafHash == Name(LeafHash(expected).value)
  }

  /** A provider's row: the vector of the offer it has signed, or a miss where nothing is stored. */
  ghost predicate IsRow(keys: Keys, e: Epoch, provider: Value, leaf: Value, row: Row) {
    && IdOf(provider) == Some(row.id) && NamesRow(leaf, e.id, row.id)
    && match FindSubmission(e.submissions, row.id)
       case None => row.vector == None && IsMiss(leaf)
       case Some(s) => exists o :: Keeps(keys, e, leaf, s, o) && o.id == row.id && row.vector == Some(o.vector)
  }

  lemma {:induction false} FoundOnRoster(items: seq<Value>, id: Text)
    ensures FindProvider(items, id).Some? <==> OnRoster(items, id)
  {
    hide IdOf;
    if items != [] {
      FoundOnRoster(items[1..], id);
      assert forall i :: 0 < i < |items| ==> items[i] == items[1..][i - 1];
      assert forall i :: 0 <= i < |items[1..]| ==> items[i + 1] == items[1..][i];
    }
  }

  lemma CommittedIff(e: Epoch)
    ensures Committed(e) <==> IsSealed(e) && IsManned(e)
  {
    hide T, Lookup, HashText, TreeOf, Name, IdOf, DistinctIds, FindProvider, OnRoster;
    if e.roster.Arr? {
      forall k | 0 <= k < |e.submissions|
        ensures FindProvider(e.roster.items, e.submissions[k].0).Some? <==> OnRoster(e.roster.items, e.submissions[k].0)
      {
        FoundOnRoster(e.roster.items, e.submissions[k].0);
      }
    }
  }

  /** What a row is made from: the submission binds its provider, and the leaf is the one of its payload. */
  ghost predicate Bound(keys: Keys, e: Epoch, provider: Value, leaf: Value, s: Submission, row: Row) {
    && SubmissionBinds(keys, e, provider, row.id, s)
    && CanonicalJson(leaf) == CanonicalJson(LeafFor(keys, e, row.id, s))
    && Opened(keys, s.envelope).Some? && row.vector == VectorOf(Opened(keys, s.envelope).value)
  }

  lemma BoundKeeps(keys: Keys, e: Epoch, i: nat, leaf: Value, s: Submission, row: Row)
    requires e.roster.Arr? && DistinctIds(e.roster.items) && i < |e.roster.items|
    requires IdOf(e.roster.items[i]) == Some(row.id) && Bound(keys, e, e.roster.items[i], leaf, s, row)
    ensures exists o :: Keeps(keys, e, leaf, s, o) && o.id == row.id && row.vector == Some(o.vector)
  {
    hide T, Lookup, KeyList, CanonicalJson, VectorOf, IsPayload, FindProvider, Name, Signed, HasVersion, HasFields,
      HasPolicy, SubmittedLeaf, LeafHash, IdOf, DistinctIds;
    FindProviderAt(e.roster.items, i);
    var payload := Opened(keys, s.envelope).value;
    var o := Offer(payload, row.id, e.roster.items[i], VectorOf(payload).value, HashText(payload).value);
    PayloadIff(payload, e.id, e.policyHash, row.id, o.vector);
    LeafIsPrintable(e.id, row.id, o.payloadHash);
    assert Keeps(keys, e, leaf, s, o);
  }

  lemma KeptIsBound(keys: Keys, e: Epoch, i: nat, leaf: Value, s: Submission, row: Row, o: Offer)
    requires e.roster.Arr? && DistinctIds(e.roster.items) && i < |e.roster.items|
    requires IdOf(e.roster.items[i]) == Some(row.id)
    requires Keeps(keys, e, leaf, s, o) && o.id == row.id && row.vector == Some(o.vector)
    ensures Bound(keys, e, e.roster.items[i], leaf, s, row)
  {
    hide T, Lookup, KeyList, CanonicalJson, VectorOf, IsPayload, FindProvider, Name, Signed, HasVersion, HasFields,
      HasPolicy, SubmittedLeaf, LeafHash, IdOf, DistinctIds;
    FindProviderAt(e.roster.items, i);
    PayloadIff(o.payload, e.id, e.policyHash, o.id, o.vector);
    LeafIsPrintable(e.id, row.id, o.payloadHash);
    PrintableLeaf(e.id, row.id, o.payloadHash);
  }

  lemma PrintableLeaf(epochId: Text, id: Text, h: Text)
    ensures CanonicalJson(SubmittedLeaf(epochId, id, h)).Ok?
  {
    hide T, Lookup, WellFormed, Clean, SubmittedLeaf;
    SubmittedLeafFacts(epochId, id, h);
    RefusesIff(SubmittedLeaf(epochId, id, h));
  }

  lemma RowIff(keys: Keys, e: Epoch, i: nat, leaf: Value, row: Row)
    requires e.roster.Arr? && DistinctIds(e.roster.items) && i < |e.roster.items|
    ensures RowOf(keys, e, e.roster.items[i], leaf) == Some(row) <==> IsRow(keys, e, e.roster.items[i], leaf, row)
  {
    hide T, Lookup, CanonicalJson, VectorOf, Keeps, SubmissionBinds, FindSubmission, LeafFor, IdOf, DistinctIds,
      IsMiss, HasHex32;
    if IdOf(e.roster.items[i]) == Some(row.id) {
      match FindSubmission(e.submissions, row.id) {
        case None => MissIff(leaf);
        case Some(s) =>
          BindingOpens(keys, e, e.roster.items[i], row.id, s);
          if Bound(keys, e, e.roster.items[i], leaf, s, row) {
            BoundKeeps(keys, e, i, leaf, s, row);
          }
          if o :| Keeps(keys, e, leaf, s, o) && o.id == row.id && row.vector == Some(o.vector) {
            KeptIsBound(keys, e, i, leaf, s, row, o);
          }
      }
    }
  }

  lemma MissIff(leaf: Value)
    ensures TextIs(leaf, STATUS, MISSED) && HasHex32(leaf, SALT) <==> IsMiss(leaf)
  {
    hide T, Lookup;
  }

  lemma BindingOpens(keys: Keys, e: Epoch, provider: Value, id: Text, s: Submission)
    ensures SubmissionBinds(keys, e, provider, id, s) ==> Opened(keys, s.envelope).Some?
  {
  }

  /**
   A stored epoch reads back, and as these rows, exactly when its manifest seals what is stored, the roster is manned, and
   each row is its provider's signed offer or miss.
   */
  lemma ReadsBackIff(keys: Keys, e: Epoch, rows: seq<Row>)
    ensures PayloadProviders(keys, e) == Some(rows) <==>
      && IsSealed(e) && IsManned(e) && |rows| == |e.roster.items|
      && forall i :: 0 <= i < |rows| ==> IsRow(keys, e, e.roster.items[i], e.leaves[i], rows[i])
  {
    hide IsSealed, RowOf, IsRow, RowsFrom, DistinctIds;
    CommittedIff(e);
    if Committed(e) {
      var items := e.roster.items;
      if RowsFrom(keys, e, items, e.leaves).Some? {
        RowsAre(keys, e, items, e.leaves);
      }
      if |rows| == |items| {
        forall i | 0 <= i < |rows|
          ensures RowOf(keys, e, items[i], e.leaves[i]) == Some(rows[i]) <==> IsRow(keys, e, items[i], e.leaves[i], rows[i])
        {
          RowIff(keys, e, i, e.leaves[i], rows[i]);
        }
        if forall i :: 0 <= i < |rows| ==> IsRow(keys, e, items[i], e.leaves[i], rows[i]) {
          RowsCompose(keys, e, items, e.leaves, rows);
        }
      }
    }
  }
}
