/** The order of the file list, read off a history. */
module ListOrder {
  import opened Bytes
  import opened History

  /** The latest event that lists or unlists `name` is a commit. */
  ghost predicate LastCommitted(t: seq<Event>, name: bytes) {
    t != [] &&
    var e := t[|t| - 1];
    if e.Committed? && e.name == name then true
    else if e.Deleted? && e.name == name then false
    else LastCommitted(t[..|t| - 1], name)
  }

  lemma {:induction false} ReplayedNames(t: seq<Event>, name: bytes)
    ensures Distinct(Replay(t).store.names)
    ensures name in Replay(t).store.names <==> LastCommitted(t, name)
  {
    if t != [] {
      var before := t[..|t| - 1];
      var e := t[|t| - 1];
      ReplayedNames(before, name);
      match e
      case Committed(_, n, _, _) => WithMembers(Replay(before).store.names, n);
      case Deleted(_, n, _) => WithoutMembers(Replay(before).store.names, n);
      case _ =>
    }
  }

  /** The commit at `k` listed `name`: when it came the name had not been committed since its latest DELETE, and it has
      not been deleted since. */
  ghost predicate ListedAt(t: seq<Event>, k: nat, name: bytes) {
    && k < |t| && t[k].Committed? && t[k].name == name
    && (forall m :: k < m < |t| && t[m].Deleted? ==> t[m].name != name)
    && (forall m :: 0 <= m < k && t[m].Committed? && t[m].name == name ==> DeletedBetween(t, m, k, name))
  }

  ghost predicate DeletedBetween(t: seq<Event>, m: nat, k: nat, name: bytes)
    requires k <= |t|
  {
    exists d :: m < d < k && t[d].Deleted? && t[d].name == name
  }

  /** The names are those that are listed, in the order in which they were. */
  ghost predicate InOrder(t: seq<Event>, names: seq<bytes>) {
    && (forall n :: n in names <==> exists k: nat :: ListedAt(t, k, n))
    && (forall i, j, k: nat, m: nat ::
          0 <= i < |names| && 0 <= j < |names| && ListedAt(t, k, names[i]) && ListedAt(t, m, names[j]) ==>
            (i < j <==> k < m))
  }

  /** The position of that commit, -1 if the name is not listed. */
  function Since(t: seq<Event>, name: bytes): (r: int)
    ensures -1 <= r < |t|
  {
    if t == [] then -1
    else
      var before, e := Since(t[..|t| - 1], name), t[|t| - 1];
      if e.Committed? && e.name == name && before < 0 then |t| - 1
      else if e.Deleted? && e.name == name then -1
      else before
  }

  /** A name that is not listed has been deleted since its latest commit, if it ever had one. */
  lemma {:induction false} SinceListed(t: seq<Event>, name: bytes)
    ensures Since(t, name) >= 0 ==> ListedAt(t, Since(t, name), name)
    ensures Since(t, name) < 0 ==>
      forall m :: 0 <= m < |t| && t[m].Committed? && t[m].name == name ==> DeletedBetween(t, m, |t|, name)
  {
    if t != [] {
      var before, e := t[..|t| - 1], t[|t| - 1];
      SinceListed(before, name);
      forall m: nat, k: nat | k <= |before| && DeletedBetween(before, m, k, name)
        ensures DeletedBetween(t, m, k, name)
      {
        var d :| m < d < k && before[d].Deleted? && before[d].name == name;
        assert t[d] == before[d];
      }
      if Since(before, name) < 0 {
        SinceNone(t, name);
      } else if e.Deleted? && e.name == name {
        forall m | 0 <= m < |before| && t[m].Committed? && t[m].name == name ensures DeletedBetween(t, m, |t|, name) {
          assert t[|before|] == e;
        }
      }
    }
  }

  lemma SinceNone(t: seq<Event>, name: bytes)
    requires t != [] && Since(t[..|t| - 1], name) < 0
    requires
      var before := t[..|t| - 1];
      forall m :: 0 <= m < |before| && before[m].Committed? && before[m].name == name ==>
        DeletedBetween(before, m, |before|, name)
    ensures Since(t, name) >= 0 ==> ListedAt(t, Since(t, name), name)
    ensures Since(t, name) < 0 ==>
      forall m :: 0 <= m < |t| && t[m].Committed? && t[m].name == name ==> DeletedBetween(t, m, |t|, name)
  {
    var before := t[..|t| - 1];
    forall m | 0 <= m < |before| && t[m].Committed? && t[m].name == name
      ensures DeletedBetween(t, m, |before|, name) && DeletedBetween(t, m, |t|, name)
    {
      assert before[m] == t[m];
      var d :| m < d < |before| && before[d].Deleted? && before[d].name == name;
      assert t[d] == before[d];
    }
  }

  /** Only one commit can have listed the name. */
  lemma ListedOnce(t: seq<Event>, k: nat, m: nat, name: bytes)
    requires ListedAt(t, k, name) && ListedAt(t, m, name)
    ensures k == m
  {
  }

  lemma ListedIsSince(t: seq<Event>, k: nat, name: bytes)
    requires ListedAt(t, k, name)
    ensures Since(t, name) == k
  {
    SinceListed(t, name);
    if Since(t, name) >= 0 {
      ListedOnce(t, k, Since(t, name), name);
    }
  }

  /** The names stand in the order of the commits that listed them. */
  ghost predicate Rising(t: seq<Event>, names: seq<bytes>) {
    forall i, j :: 0 <= i < j < |names| ==> Since(t, names[i]) < Since(t, names[j])
  }

  /** Removing a name leaves the others in their order. */
  lemma {:induction false} WithoutRises(t: seq<Event>, names: seq<bytes>, name: bytes)
    requires Rising(t, names)
    ensures Rising(t, Without(names, name)) && forall n :: n in Without(names, name) ==> n in names
  {
    if names != [] {
      var rest, left := names[1..], Without(names, name);
      assert Rising(t, rest);
      WithoutRises(t, rest, name);
      forall i, j | 0 <= i < j < |left| ensures Since(t, left[i]) < Since(t, left[j]) {
        if names[0] == name {
          assert left == rest;
        } else if i == 0 {
          FirstLeast(t, names, left[j]);
        } else {
          assert left[i] == Without(rest, name)[i - 1] && left[j] == Without(rest, name)[j - 1];
        }
      }
    }
  }

  lemma FirstLeast(t: seq<Event>, names: seq<bytes>, n: bytes)
    requires Rising(t, names) && names != [] && n in names[1..]
    ensures Since(t, names[0]) < Since(t, n)
  {
    var j :| 0 <= j < |names[1..]| && names[1..][j] == n;
    assert names[j + 1] == n;
  }

  /** An event that neither lists nor unlists a name of the list leaves all where they are. */
  lemma RisesOn(t: seq<Event>, names: seq<bytes>)
    requires t != [] && Rising(t[..|t| - 1], names)
    requires forall n :: n in names ==> Since(t, n) == Since(t[..|t| - 1], n)
    ensures Rising(t, names)
  {
  }

  lemma CommittedRises(t: seq<Event>, names: seq<bytes>, name: bytes)
    requires t != [] && t[|t| - 1].Committed? && t[|t| - 1].name == name
    requires Rising(t[..|t| - 1], names) && forall n :: n in names <==> Since(t[..|t| - 1], n) >= 0
    ensures Rising(t, With(names, name)) && forall n :: n in With(names, name) <==> Since(t, n) >= 0
  {
    var before := t[..|t| - 1];
    forall n ensures Since(t, n) == if n == name && n !in names then |t| - 1 else Since(before, n) {
      assert n in names <==> Since(before, n) >= 0;
    }
    RisesOn(t, names);
    if name !in names {
      RisesWith(t, names, name);
    }
  }

  lemma RisesWith(t: seq<Event>, names: seq<bytes>, name: bytes)
    requires Rising(t, names) && forall n :: n in names ==> Since(t, n) < Since(t, name)
    ensures Rising(t, names + [name])
  {
    var all := names + [name];
    forall i, j | 0 <= i < j < |all| ensures Since(t, all[i]) < Since(t, all[j]) {
      assert all[i] == names[i] && names[i] in names;
    }
  }

  lemma DeletedRises(t: seq<Event>, names: seq<bytes>, name: bytes)
    requires t != [] && t[|t| - 1].Deleted? && t[|t| - 1].name == name && Distinct(names)
    requires Rising(t[..|t| - 1], names) && forall n :: n in names <==> Since(t[..|t| - 1], n) >= 0
    ensures Rising(t, Without(names, name)) && forall n :: n in Without(names, name) <==> Since(t, n) >= 0
  {
    WithoutMembers(names, name);
    WithoutRises(t[..|t| - 1], names, name);
    RisesOn(t, Without(names, name));
  }

  /** The names of the store rise with the commits that listed them. */
  lemma {:induction false} NamesRise(t: seq<Event>)
    ensures Rising(t, Replay(t).store.names)
    ensures forall n :: n in Replay(t).store.names <==> Since(t, n) >= 0
  {
    if t != [] {
      var before, e := t[..|t| - 1], t[|t| - 1];
      var names := Replay(before).store.names;
      NamesRise(before);
      if e.Committed? {
        CommittedRises(t, names, e.name);
      } else if e.Deleted? {
        ReplayedNames(before, []);
        DeletedRises(t, names, e.name);
      } else {
        RisesOn(t, names);
      }
    }
  }

  lemma NamesInOrder(t: seq<Event>)
    ensures InOrder(t, Replay(t).store.names)
  {
    var names := Replay(t).store.names;
    NamesRise(t);
    forall n ensures n in names <==> exists k: nat :: ListedAt(t, k, n) {
      SinceListed(t, n);
      if k: nat :| ListedAt(t, k, n) {
        ListedIsSince(t, k, n);
      }
    }
    forall i, j, k: nat, m: nat |
      0 <= i < |names| && 0 <= j < |names| && ListedAt(t, k, names[i]) && ListedAt(t, m, names[j])
      ensures i < j <==> k < m
    {
      ListedIsSince(t, k, names[i]);
      ListedIsSince(t, m, names[j]);
    }
  }
}
