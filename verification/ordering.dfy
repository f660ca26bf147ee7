/** Rows ordered by a time stamp, and identifiers ordered as strings. */
module Ordering {
  // ---------- ORDER BY ----------

  type Stamps<!K> = map<K, int>

  ghost predicate IsNewest<K>(stamps: Stamps<K>, k: K) {
    k in stamps && forall j | j in stamps :: stamps[j] <= stamps[k]
  }

  lemma {:induction false} NewestExists<K>(stamps: Stamps<K>)
    requires stamps != map[]
    ensures exists k :: IsNewest(stamps, k)
    decreases |stamps|
  {
    assert stamps.Keys != {};
    var k :| k in stamps.Keys;
    var rest := stamps - {k};
    assert rest.Keys == stamps.Keys - {k};
    assert forall i | i in stamps :: i == k || i in rest.Keys;
    if rest == map[] {
      assert rest.Keys == {};
      assert IsNewest(stamps, k);
    } else {
      NewestExists(rest);
      var j :| IsNewest(rest, j);
      assert IsNewest(stamps, if stamps[j] < stamps[k] then k else j);
    }
  }

  ghost function Newest<K>(stamps: Stamps<K>): (k: K)
    requires stamps != map[]
    ensures IsNewest(stamps, k)
  {
    NewestExists(stamps);
    var k :| IsNewest(stamps, k);
    k
  }

  /** The keys in descending order of their stamps. */
  ghost function NewestFirst<K>(stamps: Stamps<K>): seq<K>
    decreases |stamps|
  {
    if stamps == map[] then []
    else
      var k := Newest(stamps);
      assert (stamps - {k}).Keys == stamps.Keys - {k};
      [k] + NewestFirst(stamps - {k})
  }

  lemma NewestThenRest<K>(stamps: Stamps<K>, k: K, tail: seq<K>)
    requires IsNewest(stamps, k)
    requires forall j :: j in tail <==> j in stamps && j != k
    requires forall i, j | 0 <= i < j < |tail| ::
               tail[i] in stamps && tail[j] in stamps && stamps[tail[i]] >= stamps[tail[j]]
    ensures var ks := [k] + tail;
            && (forall j :: j in ks <==> j in stamps)
            && forall i, j | 0 <= i < j < |ks| :: ks[i] in stamps && ks[j] in stamps && stamps[ks[i]] >= stamps[ks[j]]
  {
    var ks := [k] + tail;
    forall i, j | 0 <= i < j < |ks|
      ensures ks[i] in stamps && ks[j] in stamps && stamps[ks[i]] >= stamps[ks[j]]
    {
      assert ks[j] == tail[j - 1] && tail[j - 1] in tail;
      if i > 0 {
        assert ks[i] == tail[i - 1];
      }
    }
  }

  /** Descending order lists every key exactly once. */
  lemma {:induction false} NewestFirstLists<K>(stamps: Stamps<K>)
    ensures var ks := NewestFirst(stamps);
            && |ks| == |stamps| && (forall k :: k in ks <==> k in stamps)
            && forall i, j | 0 <= i < j < |ks| :: ks[i] in stamps && ks[j] in stamps && stamps[ks[i]] >= stamps[ks[j]]
    decreases |stamps|
  {
    if stamps != map[] {
      var k := Newest(stamps);
      var rest := stamps - {k};
      assert rest.Keys == stamps.Keys - {k};
      NewestFirstLists(rest);
      var ks, tail := NewestFirst(stamps), NewestFirst(rest);
      assert ks == [k] + tail;
      NewestThenRest(stamps, k, tail);
    }
  }

  function Negated<K>(stamps: Stamps<K>): Stamps<K> {
    map k | k in stamps :: -stamps[k]
  }

  /** The keys in ascending order of their stamps. */
  ghost function OldestFirst<K>(stamps: Stamps<K>): seq<K> {
    NewestFirst(Negated(stamps))
  }

  lemma OldestFirstLists<K>(stamps: Stamps<K>)
    ensures var ks := OldestFirst(stamps);
            && |ks| == |stamps| && (forall k :: k in ks <==> k in stamps)
            && forall i, j | 0 <= i < j < |ks| :: ks[i] in stamps && ks[j] in stamps && stamps[ks[i]] <= stamps[ks[j]]
  {
    NewestFirstLists(Negated(stamps));
    assert Negated(stamps).Keys == stamps.Keys;
    var ks := OldestFirst(stamps);
    forall i, j | 0 <= i < j < |ks| ensures stamps[ks[i]] <= stamps[ks[j]] {
      assert Negated(stamps)[ks[i]] >= Negated(stamps)[ks[j]];
    }
  }

  // ---------- Identifiers ----------

  predicate Less(a: string, b: string) {
    b != [] && (a == [] || a[0] < b[0] || (a[0] == b[0] && Less(a[1..], b[1..])))
  }

  lemma {:induction false} LessIsTotal(a: string, b: string)
    ensures Less(a, b) ==> !Less(b, a) && a != b
    ensures !Less(a, b) && !Less(b, a) ==> a == b
  {
    if a != [] && b != [] {
      LessIsTotal(a[1..], b[1..]);
      assert a == [a[0]] + a[1..] && b == [b[0]] + b[1..];
    }
  }

  /** The two identifiers, the smaller one first. */
  function Pair(a: string, b: string): (string, string) {
    if Less(b, a) then (b, a) else (a, b)
  }

  lemma PairIsSymmetric(a: string, b: string)
    ensures Pair(a, b) == Pair(b, a)
    ensures a != b ==> Less(Pair(a, b).0, Pair(a, b).1)
    ensures {Pair(a, b).0, Pair(a, b).1} == {a, b}
  {
    LessIsTotal(a, b);
    LessIsTotal(b, a);
  }
}
