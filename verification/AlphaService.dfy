/** The epoch record the service changes in place: submissions are filed, the root is frozen, the inputs read back. */
module AlphaServices {
  import opened Prelude
  import opened Canonical
  import opened Merkle
  import opened Commitment

  class AlphaService {
    const keys: Keys
    var epoch: Epoch

    constructor (keys: Keys, epoch: Epoch)
      ensures this.keys == keys && this.epoch == epoch
    {
      this.keys, this.epoch := keys, epoch;
    }

    /** `submitInternal`: a rejection changes nothing, a repeated submission is a duplicate. */
    method Submit(envelope: Text, stillOpen: bool, now: Text) returns (outcome: Result<bool, Rejection>)
      modifies this
      ensures
        match Commitment.Submit(keys, old(epoch), envelope, stillOpen, now)
        case Err(rejection) => outcome == Err(rejection) && epoch == old(epoch)
        case Ok(after) => epoch == after && outcome == Ok(after == old(epoch))
    {
      hide KeyList, HasHex32, VectorOf, HasPolicy, HasVersion, HasFields, FindProvider, FindSubmission, Signed,
        HashText, LeafText, Lookup;
      var content := keys.decrypt(envelope);
      if content.None? {
        return Err(NotOpened);
      }
      var opening := Opened(keys, envelope);
      if opening.None? || !opening.value.Obj? {
        return Err(BadPayload);
      }
      var payload := opening.value;
      if !HasFields(payload) {
        return Err(BadFields);
      }
      if !HasVersion(payload) {
        return Err(BadVersion);
      }
      if !TextIs(payload, EPOCH_ID, epoch.id) {
        return Err(WrongEpoch);
      }
      var named := Lookup(payload, PROVIDER_ID);
      if named.None? || !named.value.Str? || !epoch.roster.Arr? {
        return Err(NotOnRoster);
      }
      var id := named.value.s;
      var provider := FindProvider(epoch.roster.items, id);
      if provider.None? {
        return Err(NotOnRoster);
      }
      if !HasPolicy(payload, epoch.policyHash) {
        return Err(WrongPolicy);
      }
      if VectorOf(payload).None? {
        return Err(BadVector);
      }
      if !Signed(keys, content.value, payload, provider.value) {
        return Err(BadSignature);
      }
      var payloadHash, leafHash := HashText(payload), LeafText(epoch, id, payload);
      if payloadHash.None? || leafHash.None? {
        return Err(BadPayload);
      }
      outcome := File(envelope, stillOpen, now, id, payloadHash.value, leafHash.value);
    }

    /** The last part: a repeated submission, a conflicting one, a late one, or a new one. */
    method File(envelope: Text, stillOpen: bool, now: Text, id: Text, payloadHash: Text, leafHash: Text)
      returns (outcome: Result<bool, Rejection>)
      modifies this
      ensures
        var existing, e := FindSubmission(old(epoch).submissions, id), old(epoch);
        if existing.Some? then
          epoch == e && outcome == if existing.value.payloadHash == payloadHash then Ok(true) else Err(DifferentSubmission)
        else if !stillOpen then epoch == e && outcome == Err(CutoffPassed)
        else
          && outcome == Ok(false)
          && epoch == e.(submissions := e.submissions + [(id, SubmissionFor(e, envelope, now, id, payloadHash, leafHash))])
    {
      hide SubmittedLeaf;
      var existing := FindSubmission(epoch.submissions, id);
      if existing.Some? {
        if existing.value.payloadHash != payloadHash {
          return Err(DifferentSubmission);
        }
        return Ok(true);
      }
      if !stillOpen {
        return Err(CutoffPassed);
      }
      var leaf := SubmittedLeaf(epoch.id, id, payloadHash);
      var submission := Submission(envelope, now, payloadHash, leaf, leafHash);
      epoch := epoch.(submissions := epoch.submissions + [(id, submission)]);
      return Ok(false);
    }

    /** The leaves of the roster: submissions where there are any, salted misses elsewhere. */
    method CollectLeaves(salts: seq<Text>) returns (leaves: Option<seq<Value>>)
      requires epoch.roster.Arr? && |salts| == |epoch.roster.items|
      ensures leaves == LeavesOf(epoch, epoch.roster.items, salts)
    {
      hide FindSubmission, IdOf, MissedLeaf;
      var items := epoch.roster.items;
      var collected: seq<Value> := [];
      var i := 0;
      WholeLeaves(epoch, items, salts);
      while i < |items|
        invariant 0 <= i <= |items| == |salts|
        invariant LeavesOf(epoch, items, salts) == After(collected, LeavesOf(epoch, items[i..], salts[i..]))
      {
        TailIs(items, salts, i);
        var id := IdOf(items[i]);
        if id.None? {
          return None;
        }
        var submission := FindSubmission(epoch.submissions, id.value);
        var leaf := if submission.Some? then submission.value.leaf else MissedLeaf(epoch.id, id.value, salts[i]);
        AfterOne(collected, leaf, LeavesOf(epoch, items[i + 1..], salts[i + 1..]));
        collected := collected + [leaf];
        i := i + 1;
      }
      assert collected + [] == collected;
      return Some(collected);
    }

    /** What is collected already, before what the rest gives. */
    static function After<A>(collected: seq<A>, rest: Option<seq<A>>): Option<seq<A>> {
      match rest
      case None => None
      case Some(more) => Some(collected + more)
    }

    static lemma AfterOne<A>(collected: seq<A>, one: A, rest: Option<seq<A>>)
      ensures After(collected + [one], rest) == After(collected, After([one], rest))
    {
      if rest.Some? {
        assert collected + [one] + rest.value == collected + ([one] + rest.value);
      }
    }

    static lemma WholeLeaves(e: Epoch, items: seq<Value>, salts: seq<Text>)
      requires |items| == |salts|
      ensures LeavesOf(e, items, salts) == After([], LeavesOf(e, items[0..], salts[0..]))
    {
      hide LeavesOf;
      assert items[0..] == items && salts[0..] == salts;
      if LeavesOf(e, items, salts).Some? {
        assert [] + LeavesOf(e, items, salts).value == LeavesOf(e, items, salts).value;
      }
    }

    static lemma TailIs(items: seq<Value>, salts: seq<Text>, n: nat)
      requires n < |items| == |salts|
      ensures items[n..][1..] == items[n + 1..] && salts[n..][1..] == salts[n + 1..]
    {
    }

    /** `freezeRoot`: leaves, root, proofs and manifest are written together; what throws writes no root. */
    method FreezeRoot(salts: seq<Text>, sealedAt: Text, previous: Value) returns (frozen: bool)
      requires epoch.roster.Arr? ==> |salts| == |epoch.roster.items|
      modifies this
      ensures
        match Freeze(old(epoch), salts, sealedAt, previous)
        case Some(after) => frozen && epoch == after
        case None => !frozen && epoch.manifestHash == old(epoch).manifestHash && epoch.submissions == old(epoch).submissions
    {
      hide LeavesOf, TreeOf, HashText, ManifestOf, Name;
      if !epoch.roster.Arr? {
        return false;
      }
      var leaves := CollectLeaves(salts);
      if leaves.None? {
        return false;
      }
      epoch := epoch.(leaves := leaves.value);
      var tree := MerkleTree(leaves.value);
      if tree.Err? {
        return false;
      }
      epoch := epoch.(root := Some(Name(tree.value.root)), proofs := tree.value.proofs);
      var rosterHash, weightsHash := HashText(epoch.roster), HashText(epoch.weightsBps);
      if rosterHash.None? || weightsHash.None? {
        return false;
      }
      SameManifestOf(old(epoch), epoch, rosterHash.value, weightsHash.value, Name(tree.value.root), sealedAt, previous);
      var manifest := ManifestOf(epoch, rosterHash.value, weightsHash.value, Name(tree.value.root), sealedAt, previous);
      var manifestHash := HashText(manifest);
      epoch := epoch.(manifest := manifest);
      if manifestHash.None? {
        return false;
      }
      epoch := epoch.(manifestHash := manifestHash);
      return true;
    }

    /** The manifest depends only on what freezing leaves alone. */
    static lemma SameManifestOf(
        e: Epoch, f: Epoch, rosterHash: Text, weightsHash: Text, root: Text, sealedAt: Text, previous: Value)
      requires f == e.(leaves := f.leaves, root := f.root, proofs := f.proofs)
      ensures ManifestOf(f, rosterHash, weightsHash, root, sealedAt, previous)
        == ManifestOf(e, rosterHash, weightsHash, root, sealedAt, previous)
    {
      hide Record;
    }

    /** `payloadProviders`: one pass over the roster, rejected at the first check that fails. */
    method PayloadProviders() returns (rows: Option<seq<Row>>)
      ensures rows == Commitment.PayloadProviders(keys, epoch)
    {
      hide Committed, RowOf;
      if !Committed(epoch) {
        return None;
      }
      CommittedShape(epoch);
      var items, leaves := epoch.roster.items, epoch.leaves;
      var collected: seq<Row> := [];
      var i := 0;
      WholeRows(keys, epoch, items, leaves);
      while i < |items|
        invariant 0 <= i <= |items| == |leaves|
        invariant RowsFrom(keys, epoch, items, leaves)
          == After(collected, RowsFrom(keys, epoch, items[i..], leaves[i..]))
      {
        RowTailIs(items, leaves, i);
        var row := RowOf(keys, epoch, items[i], leaves[i]);
        if row.None? {
          return None;
        }
        AfterOne(collected, row.value, RowsFrom(keys, epoch, items[i + 1..], leaves[i + 1..]));
        collected := collected + [row.value];
        i := i + 1;
      }
      assert collected + [] == collected;
      return Some(collected);
    }

    static lemma WholeRows(keys: Keys, e: Epoch, items: seq<Value>, leaves: seq<Value>)
      requires |items| == |leaves|
      ensures RowsFrom(keys, e, items, leaves) == After([], RowsFrom(keys, e, items[0..], leaves[0..]))
    {
      hide RowsFrom;
      assert items[0..] == items && leaves[0..] == leaves;
      if RowsFrom(keys, e, items, leaves).Some? {
        assert [] + RowsFrom(keys, e, items, leaves).value == RowsFrom(keys, e, items, leaves).value;
      }
    }

    static lemma CommittedShape(e: Epoch)
      requires Committed(e)
      ensures e.roster.Arr? && |e.leaves| == |e.roster.items|
    {
      hide HashText, TextIs, TreeOf, DistinctIds, FindProvider;
    }

    static lemma RowTailIs(items: seq<Value>, leaves: seq<Value>, n: nat)
      requires n < |items| == |leaves|
      ensures items[n..][1..] == items[n + 1..] && leaves[n..][1..] == leaves[n + 1..]
    {
    }
  }
}
