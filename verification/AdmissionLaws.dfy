/** Who is admitted and which signals count (src/pilot/policy.js:18-46), actor by actor and key by key. */
module AdmissionLaws {
  import opened Prelude
  import opened Attribution
  import opened AttributionLaws

  // ---------------------------------------------------------------------------------------------
  // Names

  /** The same letter, in whatever case; any other character only itself. */
  predicate SameLetter(a: char, b: char) {
    || a == b
    || ('A' <= a <= 'Z' && b as int == a as int + 32)
    || ('A' <= b <= 'Z' && a as int == b as int + 32)
  }

  predicate SameName(a: string, b: string) {
    |a| == |b| && forall i :: 0 <= i < |a| ==> SameLetter(a[i], b[i])
  }

  lemma LowerIff(a: string, b: string)
    ensures Lower(a) == Lower(b) <==> SameName(a, b)
    ensures Lower(a) == "" <==> a == ""
  {
    if Lower(a) == Lower(b) {
      assert |a| == |Lower(a)| && |b| == |Lower(b)|;
      forall i | 0 <= i < |a| ensures SameLetter(a[i], b[i]) {
        assert Lower(a)[i] == Lower(b)[i];
      }
    }
    if SameName(a, b) {
      forall i | 0 <= i < |a| ensures Lower(a)[i] == Lower(b)[i] {
        assert SameLetter(a[i], b[i]);
      }
    }
  }

  /** Every actor has the name, and no two share it. */
  ghost predicate NamedApart(actors: seq<Actor>, field: Field) {
    && (forall i :: 0 <= i < |actors| ==> FieldOf(actors[i], field) != "")
    && (forall i, j :: 0 <= i < j < |actors| ==> !SameName(FieldOf(actors[i], field), FieldOf(actors[j], field)))
  }

  lemma NamesApartIff(actors: seq<Actor>, field: Field)
    ensures UniqueNames(Names(actors, field)) <==> NamedApart(actors, field)
  {
    hide Lower, SameName, FieldOf;
    var names := Names(actors, field);
    forall i | 0 <= i < |actors| ensures names[i] == "" <==> FieldOf(actors[i], field) == "" {
      LowerIff(FieldOf(actors[i], field), "");
    }
    forall i, j | 0 <= i < |actors| && 0 <= j < |actors|
      ensures names[i] == names[j] <==> SameName(FieldOf(actors[i], field), FieldOf(actors[j], field))
    {
      LowerIff(FieldOf(actors[i], field), FieldOf(actors[j], field));
    }
  }

  // ---------------------------------------------------------------------------------------------
  // Keys

  /** No key is listed twice, by one actor or by two. */
  ghost predicate KeysApart(actors: seq<Actor>) {
    && (forall i, a, b :: 0 <= i < |actors| && 0 <= a < b < |actors[i].keys| ==> actors[i].keys[a] != actors[i].keys[b])
    && (forall i, j :: 0 <= i < j < |actors| ==> forall key :: key in actors[i].keys ==> key !in actors[j].keys)
  }

  lemma NoRepeatsIff(a: seq<string>, b: seq<string>)
    ensures NoRepeats(a + b) <==> NoRepeats(a) && NoRepeats(b) && forall key :: key in a ==> key !in b
  {
    var all := a + b;
    assert forall i :: 0 <= i < |a| ==> all[i] == a[i];
    assert forall j :: 0 <= j < |b| ==> all[|a| + j] == b[j];
    if NoRepeats(all) {
      NoRepeatsSplit(a, b);
    }
    if NoRepeats(a) && NoRepeats(b) && forall key :: key in a ==> key !in b {
      forall i, j | 0 <= i < j < |all| ensures all[i] != all[j] {
        if i < |a| <= j {
          assert all[i] in a && all[j] == b[j - |a|];
        } else if |a| <= i {
          assert all[i] == b[i - |a|] && all[j] == b[j - |a|];
        }
      }
    }
  }

  lemma {:induction false} AllKeysHave(actors: seq<Actor>, key: string)
    ensures key in AllKeys(actors) <==> exists i :: 0 <= i < |actors| && key in actors[i].keys
  {
    if actors != [] {
      var front, last := actors[..|actors| - 1], actors[|actors| - 1];
      AllKeysHave(front, key);
      assert key in AllKeys(actors) <==> key in AllKeys(front) || key in last.keys;
      if i :| 0 <= i < |front| && key in front[i].keys {
        assert key in actors[i].keys;
      }
      if key in last.keys {
        assert key in actors[|actors| - 1].keys;
      }
    }
  }

  lemma KeysApartStep(front: seq<Actor>, last: Actor)
    ensures KeysApart(front + [last]) <==>
      && KeysApart(front) && NoRepeats(last.keys)
      && forall i :: 0 <= i < |front| ==> forall key :: key in front[i].keys ==> key !in last.keys
  {
    var all := front + [last];
    assert all[|front|] == last && forall i :: 0 <= i < |front| ==> all[i] == front[i];
  }

  lemma {:induction false} KeysApartIff(actors: seq<Actor>)
    ensures NoRepeats(AllKeys(actors)) <==> KeysApart(actors)
  {
    hide NoRepeats, KeysApart;
    if actors == [] {
      NoKeys();
    } else {
      var front, last := actors[..|actors| - 1], actors[|actors| - 1];
      assert actors == front + [last];
      KeysApartIff(front);
      NoRepeatsIff(AllKeys(front), last.keys);
      KeysApartStep(front, last);
      forall key ensures key in AllKeys(front) <==> exists i :: 0 <= i < |front| && key in front[i].keys {
        AllKeysHave(front, key);
      }
    }
  }

  lemma NoKeys()
    ensures NoRepeats([]) && KeysApart([])
  {
  }

  // ---------------------------------------------------------------------------------------------
  // Actors and signals

  /**
   At most eight actors: each with an id, a payout and a subject of its own, whatever the case of letters; each approved,
   with evidence and a key; and no key twice.
   */
  ghost predicate AreAdmitted(actors: seq<Actor>) {
    && |actors| <= 8
    && NamedApart(actors, Id) && NamedApart(actors, Payout) && NamedApart(actors, Subject)
    && (forall i :: 0 <= i < |actors| ==> actors[i].approved && actors[i].evidence != "" && |actors[i].keys| > 0)
    && KeysApart(actors)
  }

  lemma AdmittedIff(actors: seq<Actor>)
    ensures CheckActors(actors) == Pass <==> AreAdmitted(actors)
  {
    hide UniqueNames, Names, NamedApart, NoRepeats, KeysApart, AllKeys;
    NamesApartIff(actors, Id);
    NamesApartIff(actors, Payout);
    NamesApartIff(actors, Subject);
    KeysApartIff(actors);
  }

  /** A signal under a key of its own actor, with four integers from -10000 to 10000. */
  ghost predicate IsSignal(actors: seq<Actor>, s: Signal) {
    && (exists i :: 0 <= i < |actors| && actors[i].id == s.actorId && s.key in actors[i].keys)
    && |s.vector| == 4 && forall k :: 0 <= k < 4 ==> -10000 <= s.vector[k] <= 10000
  }

  /** Signals are grouped exactly when the actors are admitted, every signal is one, and no two are under one key. */
  lemma SignalsGroupedIff(actors: seq<Actor>, signals: seq<Signal>)
    ensures Grouped(actors, signals).Ok? <==>
      && AreAdmitted(actors)
      && (forall i :: 0 <= i < |signals| ==> IsSignal(actors, signals[i]))
      && (forall i, j :: 0 <= i < j < |signals| ==> signals[i].key != signals[j].key)
  {
    hide AreAdmitted, CheckActors, Grouped;
    AdmittedIff(actors);
    GroupedIff(actors, signals);
    forall i | 0 <= i < |signals|
      ensures IsSignal(actors, signals[i]) <==>
        Owns(actors, signals[i].actorId, signals[i].key) && ValidVector(signals[i].vector)
    {
    }
    assert forall i :: 0 <= i < |signals| ==> KeysOf(signals)[i] == signals[i].key;
  }
}
